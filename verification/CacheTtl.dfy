/** How long an answer is cached (cache/cache.go, calculateTTL). Durations are in nanoseconds. */
module CacheTtl {
  import opened Dns
  import opened Words

  const SECOND := 1_000_000_000
  const MIN_CACHE_TTL := 30 * SECOND
  const MAX_CACHE_TTL := 24 * 3600 * SECOND
  const NEGATIVE_RESPONSE_TTL_DIVISOR := 4
  const MAX_UINT32: Uint32 := 0xFFFF_FFFF

  /** 0.0.0.0 and ::, as parsed at startup. */
  const INVALID_A: seq<Byte> := [0, 0, 0, 0]
  const INVALID_AAAA: seq<Byte> := [0, 0, 0, 0, 0, 0, 0, 0, 0, 0, 0, 0, 0, 0, 0, 0]

  /** A record that sends the whole answer to the default TTL. */
  predicate Suspect(rr: RR) {
    || rr.ttl == 0
    || (rr.rrtype == TYPE_A && rr.data.AddressA? && rr.data.a == INVALID_A)
    || (rr.rrtype == TYPE_AAAA && rr.data.AddressAAAA? && rr.data.aaaa == INVALID_AAAA)
  }

  function MinTtl(answers: seq<RR>): Uint32 {
    if answers == [] then MAX_UINT32
    else
      var front, last := MinTtl(answers[..|answers| - 1]), answers[|answers| - 1].ttl;
      if last < front then last else front
  }

  function Clamp(ttl: int): int {
    if ttl < MIN_CACHE_TTL then MIN_CACHE_TTL else if ttl > MAX_CACHE_TTL then MAX_CACHE_TTL else ttl
  }

  /** The specification: no order of records, no early exit. */
  function AnswerTtl(defaultTtl: int, answers: seq<RR>): int {
    if answers == [] || exists rr :: rr in answers && Suspect(rr) then defaultTtl
    else Clamp(MinTtl(answers) * SECOND)
  }

  /** `bytesEqual`. */
  method BytesEqual(a: seq<Byte>, b: seq<Byte>) returns (equal: bool)
    ensures equal <==> a == b
  {
    if |a| != |b| {
      return false;
    }
    for i := 0 to |a|
      invariant a[..i] == b[..i]
    {
      if a[i] != b[i] {
        return false;
      }
    }
    assert a[..|a|] == a && b[..|b|] == b;
    return true;
  }

  /** The multiplication to nanoseconds does not overflow an int64, for any TTL. */
  lemma TtlFitsDuration(ttl: Uint32)
    ensures WrapSigned(ttl * SECOND) == ttl * SECOND
  {
    InSignedRange(ttl * SECOND);
  }

  /** The answer is empty, or a record in it has TTL zero, or is an address record of 0.0.0.0 or of ::. */
  ghost predicate TakesDefault(answers: seq<RR>) {
    || answers == []
    || exists i :: 0 <= i < |answers| && (
         || answers[i].ttl == 0
         || (answers[i].rrtype == 1 && answers[i].data == AddressA([0, 0, 0, 0]))
         || (answers[i].rrtype == 28 && answers[i].data.AddressAAAA? && |answers[i].data.aaaa| == 16
             && forall b :: 0 <= b < 16 ==> answers[i].data.aaaa[b] == 0))
  }

  /** The TTL is that of a shortest-lived record, in nanoseconds, but at least 30 seconds and at most a day. */
  ghost predicate ShortestLife(answers: seq<RR>, ttl: int) {
    exists i :: 0 <= i < |answers| && (forall j :: 0 <= j < |answers| ==> answers[i].ttl <= answers[j].ttl)
      && ttl == 1_000_000_000 * if answers[i].ttl < 30 then 30 else if answers[i].ttl > 86400 then 86400
                                else answers[i].ttl
  }

  lemma SuspectIff(rr: RR)
    ensures Suspect(rr) <==>
            || rr.ttl == 0
            || (rr.rrtype == 1 && rr.data == AddressA([0, 0, 0, 0]))
            || (rr.rrtype == 28 && rr.data.AddressAAAA? && |rr.data.aaaa| == 16
                && forall b :: 0 <= b < 16 ==> rr.data.aaaa[b] == 0)
  {
    if rr.data.AddressAAAA? && |rr.data.aaaa| == 16 && forall b :: 0 <= b < 16 ==> rr.data.aaaa[b] == 0 {
      assert rr.data.aaaa == INVALID_AAAA;
    }
  }

  /** What the specification means: the default in exactly those cases, and else the shortest life. */
  lemma AnswerTtlMeans(defaultTtl: int, answers: seq<RR>)
    ensures if TakesDefault(answers) then AnswerTtl(defaultTtl, answers) == defaultTtl
            else ShortestLife(answers, AnswerTtl(defaultTtl, answers))
  {
    forall i | 0 <= i < |answers|
      ensures Suspect(answers[i]) <==>
              || answers[i].ttl == 0
              || (answers[i].rrtype == 1 && answers[i].data == AddressA([0, 0, 0, 0]))
              || (answers[i].rrtype == 28 && answers[i].data.AddressAAAA? && |answers[i].data.aaaa| == 16
                  && forall b :: 0 <= b < 16 ==> answers[i].data.aaaa[b] == 0)
    {
      SuspectIff(answers[i]);
    }
    if TakesDefault(answers) {
      if answers != [] {
        hide TakesDefault;
        SomeSuspect(answers);
      }
    } else {
      MinTtlIsMinimum(answers);
      var rr :| rr in answers && MinTtl(answers) == rr.ttl;
      var i :| 0 <= i < |answers| && answers[i] == rr;
      hide Suspect;
      assert forall j :: 0 <= j < |answers| ==> answers[j] in answers;
    }
  }

  lemma SomeSuspect(answers: seq<RR>)
    requires TakesDefault(answers) && answers != []
    ensures exists rr :: rr in answers && Suspect(rr)
  {
    var i :| 0 <= i < |answers| && (
         || answers[i].ttl == 0
         || (answers[i].rrtype == 1 && answers[i].data == AddressA([0, 0, 0, 0]))
         || (answers[i].rrtype == 28 && answers[i].data.AddressAAAA? && |answers[i].data.aaaa| == 16
             && forall b :: 0 <= b < 16 ==> answers[i].data.aaaa[b] == 0));
    SuspectIff(answers[i]);
    assert answers[i] in answers;
  }

  /** Computes the TTL of an answer, and with it the default in the cases named and else the shortest life. */
  method CalculateTTL(defaultTtl: int, answers: seq<RR>) returns (ttl: int)
    ensures ttl == AnswerTtl(defaultTtl, answers)
    ensures if TakesDefault(answers) then ttl == defaultTtl else ShortestLife(answers, ttl)
  {
    AnswerTtlMeans(defaultTtl, answers);
    hide TakesDefault, ShortestLife;
    if |answers| == 0 {
      return defaultTtl;
    }
    var minTtl := MAX_UINT32;
    for i := 0 to |answers|
      invariant minTtl == MinTtl(answers[..i])
      invariant forall j :: 0 <= j < i ==> !Suspect(answers[j])
    {
      assert answers[..i + 1][..i] == answers[..i];
      var rr := answers[i];
      assert rr in answers;
      if rr.ttl == 0 {
        return defaultTtl;
      }
      if rr.ttl < minTtl {
        minTtl := rr.ttl;
      }
      if rr.rrtype == TYPE_A && |INVALID_A| > 0 {
        if rr.data.AddressA? {
          var invalid := BytesEqual(rr.data.a, INVALID_A);
          if invalid {
            return defaultTtl;
          }
        }
      } else if rr.rrtype == TYPE_AAAA && |INVALID_AAAA| > 0 {
        if rr.data.AddressAAAA? {
          var invalid := BytesEqual(rr.data.aaaa, INVALID_AAAA);
          if invalid {
            return defaultTtl;
          }
        }
      }
    }
    assert answers[..|answers|] == answers;
    TtlFitsDuration(minTtl);
    var duration := WrapSigned(minTtl * SECOND);
    if duration < MIN_CACHE_TTL {
      return MIN_CACHE_TTL;
    }
    if duration > MAX_CACHE_TTL {
      return MAX_CACHE_TTL;
    }
    return duration;
  }

  /** The minimum is attained, and is below every record's TTL. */
  lemma {:induction false} MinTtlIsMinimum(answers: seq<RR>)
    ensures forall rr :: rr in answers ==> MinTtl(answers) <= rr.ttl
    ensures answers != [] ==> exists rr :: rr in answers && MinTtl(answers) == rr.ttl
  {
    if answers != [] {
      var front, last := answers[..|answers| - 1], answers[|answers| - 1];
      MinTtlIsMinimum(front);
      assert answers == front + [last];
      if front != [] && last.ttl >= MinTtl(front) {
        var rr :| rr in front && MinTtl(front) == rr.ttl;
        assert rr in answers;
      } else {
        assert last in answers && last.ttl <= MAX_UINT32;
      }
    }
  }

  /** The TTL depends on which records the answer holds, not on their order or multiplicity. */
  lemma TtlIsOrderFree(defaultTtl: int, a: seq<RR>, b: seq<RR>)
    requires forall rr :: rr in a <==> rr in b
    ensures AnswerTtl(defaultTtl, a) == AnswerTtl(defaultTtl, b)
  {
    MinTtlIsMinimum(a);
    MinTtlIsMinimum(b);
    assert a != [] ==> a[0] in a;
    assert b != [] ==> b[0] in b;
    if a != [] {
      var x :| x in a && MinTtl(a) == x.ttl;
      var y :| y in b && MinTtl(b) == y.ttl;
    }
  }

  /** With a validated default, every TTL lies between 30 seconds and 24 hours; and a usable answer is cached for the
      TTL of its shortest-lived record when that lies between the two. */
  lemma TtlIsBounded(defaultTtl: int, answers: seq<RR>)
    requires MIN_CACHE_TTL <= defaultTtl <= MAX_CACHE_TTL
    ensures MIN_CACHE_TTL <= AnswerTtl(defaultTtl, answers) <= MAX_CACHE_TTL
    ensures answers != [] && (forall rr :: rr in answers ==> !Suspect(rr) && 30 <= rr.ttl) ==>
              exists rr :: rr in answers && AnswerTtl(defaultTtl, answers) ==
                             if rr.ttl * SECOND <= MAX_CACHE_TTL then rr.ttl * SECOND else MAX_CACHE_TTL
  {
    MinTtlIsMinimum(answers);
  }

  /** The life of a fill: negative answers get a quarter of the default. */
  function FillTtl(defaultTtl: int, answers: seq<RR>): int {
    if answers == [] then defaultTtl / NEGATIVE_RESPONSE_TTL_DIVISOR else AnswerTtl(defaultTtl, answers)
  }

  /** How long an answer is cached: a quarter of the default if it is negative, the default if it is not to be trusted,
      and otherwise the clamped TTL of its shortest-lived record. */
  ghost predicate LivesFor(defaultTtl: int, answers: seq<RR>, life: int) {
    if answers == [] then life == defaultTtl / 4
    else if TakesDefault(answers) then life == defaultTtl
    else ShortestLife(answers, life)
  }

  lemma FillTtlMeans(defaultTtl: int, answers: seq<RR>)
    ensures LivesFor(defaultTtl, answers, FillTtl(defaultTtl, answers))
  {
    AnswerTtlMeans(defaultTtl, answers);
    hide AnswerTtl, TakesDefault, ShortestLife;
  }
}
