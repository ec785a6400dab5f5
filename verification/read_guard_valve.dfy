/** The large-read guard: a bounded table of attempts per file fingerprint and
    the one-shot escape valve, over sequential runs whose saves succeed. */
module ReadGuardValve {
  import opened Basics
  import opened ReadRange
  import opened Sequences

  const READ_GUARD_STATE_MAX_ITEMS: nat := 128
  const MAX_COUNT: int := 1_000_000

  type Fingerprint = string

  datatype Entry = Entry(count: int, valveUsed: bool, firstSeen: int, lastSeen: int)

  /** One key of the persisted table; the table keeps insertion order. */
  datatype Item = Item(fp: Fingerprint, entry: Entry)

  type Table = seq<Item>

  datatype Recording = Recording(fp: Fingerprint, now: int, fired: bool)

  const DEFAULT_ENTRY := Entry(0, false, 0, 0)

  function Clamp(value: int, low: int, high: int): int {
    Min(Max(value, low), high)
  }

  function Normalize(e: Entry): Entry {
    Entry(Clamp(e.count, 0, MAX_COUNT), e.valveUsed,
          Clamp(e.firstSeen, 0, MAX_READ_RANGE_INTEGER), Clamp(e.lastSeen, 0, MAX_READ_RANGE_INTEGER))
  }

  function Keys(t: Table): (keys: seq<Fingerprint>)
    ensures |keys| == |t| && forall i :: 0 <= i < |t| ==> keys[i] == t[i].fp
  {
    seq(|t|, i requires 0 <= i < |t| => t[i].fp)
  }

  function Lookup(t: Table, fp: Fingerprint): Entry {
    if t == [] then DEFAULT_ENTRY
    else if t[0].fp == fp then Normalize(t[0].entry)
    else Lookup(t[1..], fp)
  }

  function Without(t: Table, fp: Fingerprint): Table {
    if t == [] then []
    else if t[0].fp == fp then Without(t[1..], fp)
    else [t[0]] + Without(t[1..], fp)
  }

  function Touched(e: Entry, now: int, fired: bool): Entry {
    Entry(e.count + 1, e.valveUsed || fired, if e.firstSeen != 0 then e.firstSeen else now, now)
  }

  function Recorded(t: Table, r: Recording): Table {
    var entry := Touched(Lookup(t, r.fp), r.now, r.fired);
    Last(Without(t, r.fp) + [Item(r.fp, entry)], READ_GUARD_STATE_MAX_ITEMS)
  }

  lemma {:induction false} LookupAbsent(t: Table, fp: Fingerprint)
    requires fp !in Keys(t)
    ensures Lookup(t, fp) == DEFAULT_ENTRY
  {
    if t != [] {
      assert Keys(t) == [t[0].fp] + Keys(t[1..]);
      LookupAbsent(t[1..], fp);
    }
  }

  lemma {:induction false} LookupPresent(t: Table, fp: Fingerprint, i: nat)
    requires i < |t| && t[i].fp == fp && forall k :: 0 <= k < i ==> t[k].fp != fp
    ensures Lookup(t, fp) == Normalize(t[i].entry)
  {
    if i > 0 {
      LookupPresent(t[1..], fp, i - 1);
    }
  }

  /** The attempts dictionary: pop, reinsert at the end, evict from the front. */
  class AttemptTable {
    var items: Table

    constructor ()
      ensures items == []
    {
      items := [];
    }

    /** The normalized entry of the key if it is there, else the default one. */
    method Peek(fp: Fingerprint) returns (entry: Entry)
      ensures entry == Lookup(items, fp)
      ensures fp !in Keys(items) ==> entry == DEFAULT_ENTRY
      ensures forall i :: 0 <= i < |items| && items[i].fp == fp && Distinct(Keys(items)) ==>
        entry == Normalize(items[i].entry)
    {
      if fp !in Keys(items) {
        LookupAbsent(items, fp);
      }
      forall i | 0 <= i < |items| && items[i].fp == fp && Distinct(Keys(items))
        ensures Lookup(items, fp) == Normalize(items[i].entry)
      {
        LookupPresent(items, fp, i);
      }
      entry := Lookup(items, fp);
    }

    method Record(fp: Fingerprint, now: int, fired: bool) returns (count: int)
      modifies this
      ensures items == Recorded(old(items), Recording(fp, now, fired))
      ensures count == Lookup(old(items), fp).count + 1
    {
      var entry := Lookup(items, fp);
      entry := entry.(count := entry.count + 1);
      entry := entry.(valveUsed := entry.valveUsed || fired);
      if entry.firstSeen == 0 {
        entry := entry.(firstSeen := now);
      }
      entry := entry.(lastSeen := now);
      items := Without(items, fp) + [Item(fp, entry)];
      if |items| > READ_GUARD_STATE_MAX_ITEMS {
        items := items[|items| - READ_GUARD_STATE_MAX_ITEMS..];
      }
      count := entry.count;
    }
  }

  // ---- The table is the most recent distinct fingerprints ----

  function TableAfter(rs: seq<Recording>): Table {
    if rs == [] then [] else Recorded(TableAfter(rs[..|rs| - 1]), rs[|rs| - 1])
  }

  predicate Distinct<T(==)>(s: seq<T>) {
    forall i, j :: 0 <= i < j < |s| ==> s[i] != s[j]
  }

  function Dropping(s: seq<Fingerprint>, fp: Fingerprint): (d: seq<Fingerprint>)
    ensures forall x :: x in d <==> x in s && x != fp
    ensures |d| <= |s|
  {
    if s == [] then []
    else if s[0] == fp then Dropping(s[1..], fp)
    else [s[0]] + Dropping(s[1..], fp)
  }

  /** All fingerprints recorded so far, each at its last recording. */
  function Recency(rs: seq<Recording>): seq<Fingerprint> {
    if rs == [] then []
    else Dropping(Recency(rs[..|rs| - 1]), rs[|rs| - 1].fp) + [rs[|rs| - 1].fp]
  }

  lemma {:induction false} DroppingConcat(a: seq<Fingerprint>, b: seq<Fingerprint>, fp: Fingerprint)
    ensures Dropping(a + b, fp) == Dropping(a, fp) + Dropping(b, fp)
  {
    if a == [] {
      assert a + b == b;
    } else {
      DroppingConcat(a[1..], b, fp);
      assert (a + b)[1..] == a[1..] + b && (a + b)[0] == a[0];
      Associative([a[0]], Dropping(a[1..], fp), Dropping(b, fp));
    }
  }

  lemma {:induction false} DroppingDistinct(s: seq<Fingerprint>, fp: Fingerprint)
    requires Distinct(s)
    ensures Distinct(Dropping(s, fp))
    ensures |Dropping(s, fp)| >= |s| - 1
    ensures fp !in s ==> Dropping(s, fp) == s
  {
    if s != [] {
      DroppingDistinct(s[1..], fp);
      assert s == [s[0]] + s[1..];
      assert s[0] !in s[1..];
    }
  }

  lemma {:induction false} KeysWithout(t: Table, fp: Fingerprint)
    ensures Keys(Without(t, fp)) == Dropping(Keys(t), fp)
  {
    if t != [] {
      KeysWithout(t[1..], fp);
      assert Keys(t)[1..] == Keys(t[1..]);
    }
  }

  lemma KeysRecorded(t: Table, r: Recording)
    ensures Keys(Recorded(t, r)) ==
            Last(Dropping(Keys(t), r.fp) + [r.fp], READ_GUARD_STATE_MAX_ITEMS)
  {
    KeysWithout(t, r.fp);
  }

  lemma {:induction false} RecencyDistinct(rs: seq<Recording>)
    ensures Distinct(Recency(rs))
  {
    if rs != [] {
      RecencyDistinct(rs[..|rs| - 1]);
      DroppingDistinct(Recency(rs[..|rs| - 1]), rs[|rs| - 1].fp);
    }
  }

  /** Touching the bounded list and touching the full one agree on the last `n`. */
  lemma TouchCommutes(full: seq<Fingerprint>, fp: Fingerprint, n: nat)
    requires Distinct(full) && n > 0
    ensures Last(Dropping(Last(full, n), fp) + [fp], n) == Last(Dropping(full, fp) + [fp], n)
  {
    if |full| > n {
      var older, kept := full[..|full| - n], full[|full| - n..];
      assert full == older + kept;
      DroppingConcat(older, kept, fp);
      DroppingDistinct(kept, fp);
      assert Dropping(older, fp) + Dropping(kept, fp) + [fp] == Dropping(older, fp) + (Dropping(kept, fp) + [fp]);
      LastOfConcat(Dropping(older, fp), Dropping(kept, fp) + [fp], n);
    }
  }

  /** From an empty table, the keys are always the at most 128 most recently
      recorded fingerprints, in recency order. */
  lemma {:induction false} KeysAreMostRecent(rs: seq<Recording>)
    ensures Keys(TableAfter(rs)) == Last(Recency(rs), 128)
  {
    if rs != [] {
      var before := rs[..|rs| - 1];
      KeysAreMostRecent(before);
      RecencyDistinct(before);
      KeysRecorded(TableAfter(before), rs[|rs| - 1]);
      TouchCommutes(Recency(before), rs[|rs| - 1].fp, READ_GUARD_STATE_MAX_ITEMS);
    }
  }

  /** The position just after the last recording of a fingerprint; 0 if never recorded. */
  function LastRecorded(rs: seq<Recording>, fp: Fingerprint): nat {
    if rs == [] then 0
    else if rs[|rs| - 1].fp == fp then |rs|
    else LastRecorded(rs[..|rs| - 1], fp)
  }

  lemma {:induction false} LastRecordedBound(rs: seq<Recording>, fp: Fingerprint)
    ensures LastRecorded(rs, fp) <= |rs|
  {
    if rs != [] {
      LastRecordedBound(rs[..|rs| - 1], fp);
    }
  }

  predicate OrderedByLast(rs: seq<Recording>, s: seq<Fingerprint>) {
    forall i, j :: 0 <= i < j < |s| ==> LastRecorded(rs, s[i]) < LastRecorded(rs, s[j])
  }

  /** What the recency order means: every recorded fingerprint, by its last recording. */
  lemma {:induction false} RecencyOrdersByLastRecording(rs: seq<Recording>)
    ensures forall fp :: fp in Recency(rs) <==> LastRecorded(rs, fp) > 0
    ensures OrderedByLast(rs, Recency(rs))
  {
    if rs != [] {
      var before, last := rs[..|rs| - 1], rs[|rs| - 1].fp;
      RecencyOrdersByLastRecording(before);
      var older := Dropping(Recency(before), last);
      DroppingKeepsOrder(before, Recency(before), last);
      forall i | 0 <= i < |older| ensures LastRecorded(rs, older[i]) == LastRecorded(before, older[i]) < |rs| {
        assert older[i] in older;
        LastRecordedBound(before, older[i]);
      }
    }
  }

  lemma {:induction false} DroppingKeepsOrder(rs: seq<Recording>, s: seq<Fingerprint>, fp: Fingerprint)
    requires OrderedByLast(rs, s)
    ensures OrderedByLast(rs, Dropping(s, fp))
  {
    if s != [] {
      var rest := Dropping(s[1..], fp);
      DroppingKeepsOrder(rs, s[1..], fp);
      forall j | 0 <= j < |rest| ensures LastRecorded(rs, s[0]) < LastRecorded(rs, rest[j]) {
        assert rest[j] in s[1..];
        var k :| 0 <= k < |s[1..]| && s[1..][k] == rest[j];
        assert s[k + 1] == rest[j];
      }
    }
  }

  // ---- Counting attempts ----

  /** Recordings of a fingerprint since it last entered the table. */
  function SinceEntry(rs: seq<Recording>, fp: Fingerprint): nat {
    if rs == [] || fp !in Keys(TableAfter(rs)) then 0
    else SinceEntry(rs[..|rs| - 1], fp) + if rs[|rs| - 1].fp == fp then 1 else 0
  }

  /** Some recording since the fingerprint last entered the table fired the valve. */
  function FiredSinceEntry(rs: seq<Recording>, fp: Fingerprint): bool {
    if rs == [] || fp !in Keys(TableAfter(rs)) then false
    else FiredSinceEntry(rs[..|rs| - 1], fp) || (rs[|rs| - 1].fp == fp && rs[|rs| - 1].fired)
  }

  lemma {:induction false} LookupConcat(a: Table, b: Table, fp: Fingerprint)
    ensures Lookup(a + b, fp) == if fp in Keys(a) then Lookup(a, fp) else Lookup(b, fp)
  {
    if a == [] {
      assert a + b == b;
    } else {
      LookupConcat(a[1..], b, fp);
      assert (a + b)[1..] == a[1..] + b;
      assert Keys(a) == [a[0].fp] + Keys(a[1..]);
    }
  }

  lemma {:induction false} LookupWithout(t: Table, fp: Fingerprint, other: Fingerprint)
    requires other != fp
    ensures Lookup(Without(t, fp), other) == Lookup(t, other)
  {
    if t != [] {
      LookupWithout(t[1..], fp, other);
      if t[0].fp != fp {
        assert ([t[0]] + Without(t[1..], fp))[1..] == Without(t[1..], fp);
      }
    }
  }

  lemma OnlyInOne(older: Table, kept: Table, fp: Fingerprint)
    requires Distinct(Keys(older + kept)) && fp in Keys(kept)
    ensures fp !in Keys(older)
  {
    var all := Keys(older + kept);
    var j :| 0 <= j < |kept| && Keys(kept)[j] == fp;
    assert all[|older| + j] == fp;
    forall i | 0 <= i < |older| ensures Keys(older)[i] != fp {
      assert all[i] == Keys(older)[i];
    }
  }

  lemma LookupYoungest(t: Table, n: nat, fp: Fingerprint)
    requires Distinct(Keys(t)) && fp in Keys(Last(t, n))
    ensures Lookup(Last(t, n), fp) == Lookup(t, fp)
  {
    if |t| > n {
      var older, kept := t[..|t| - n], t[|t| - n..];
      assert t == older + kept;
      OnlyInOne(older, kept, fp);
      LookupConcat(older, kept, fp);
    }
  }

  lemma LookupRecorded(t: Table, r: Recording, fp: Fingerprint)
    requires Distinct(Keys(t)) && fp in Keys(Recorded(t, r))
    ensures Lookup(Recorded(t, r), fp) ==
            if fp == r.fp then Normalize(Touched(Lookup(t, fp), r.now, r.fired)) else Lookup(t, fp)
    ensures fp != r.fp ==> fp in Keys(t)
  {
    var item := Item(r.fp, Touched(Lookup(t, r.fp), r.now, r.fired));
    var grown := Without(t, r.fp) + [item];
    KeysWithout(t, r.fp);
    DroppingDistinct(Keys(t), r.fp);
    assert Keys(grown) == Dropping(Keys(t), r.fp) + [r.fp];
    LookupYoungest(grown, READ_GUARD_STATE_MAX_ITEMS, fp);
    LookupConcat(Without(t, r.fp), [item], fp);
    if fp == r.fp {
      assert fp !in Keys(Without(t, r.fp));
    } else {
      LookupWithout(t, r.fp, fp);
      assert fp in Keys(grown);
    }
  }

  lemma DistinctAfter(rs: seq<Recording>)
    ensures Distinct(Keys(TableAfter(rs)))
  {
    KeysAreMostRecent(rs);
    RecencyDistinct(rs);
  }

  /** The stored entry counts the recordings since entry, up to its ceiling,
      and remembers whether one of them fired the valve. */
  lemma {:induction false} EntryCounts(rs: seq<Recording>, fp: Fingerprint)
    ensures var e := Lookup(TableAfter(rs), fp);
      e.count == Min(SinceEntry(rs, fp), MAX_COUNT) && e.valveUsed == FiredSinceEntry(rs, fp)
  {
    if fp !in Keys(TableAfter(rs)) {
      LookupAbsent(TableAfter(rs), fp);
    } else if rs != [] {
      var before := rs[..|rs| - 1];
      EntryCounts(before, fp);
      DistinctAfter(before);
      LookupRecorded(TableAfter(before), rs[|rs| - 1], fp);
    }
  }

  // ---- The hook's decision ----

  datatype Config = Config(contentLimit: nat, maxLines: nat, proofBytes: nat) {
    predicate Valid() {
      1 <= contentLimit && 1 <= maxLines <= 20_000 && 1 <= proofBytes
    }
  }

  datatype Range = Range(offset: int, limit: int)

  /** What the descriptor did while a proof ran. */
  datatype Glitch = Steady | Changed | Unreadable

  datatype Outcome = InvalidRange | ProofFailed | Proved(verdict: Verdict)

  /** One hook call: the file as sized, the bytes that it delivers, the range
      asked for, and what happened during the two proofs. */
  datatype Call = Call(
    fp: Fingerprint, size: nat, data: Bytes, requested: Option<Range>,
    first: Glitch, second: Glitch, now: int)

  datatype Reason = Exhausted | OverBudget | Ladder(outcome: Outcome)

  datatype Response = PassThrough | Offer(range: Range) | Deny(reason: Reason, count: int)

  datatype Decision = Decision(response: Response, recording: Option<Recording>)

  function RangeQuery(c: Config, call: Call, r: Range): Query {
    Query(call.size, r.offset, r.limit, c.contentLimit, c.proofBytes)
  }

  /** The range integers that the payload parser lets through. */
  predicate ValidRange(c: Config, r: Range) {
    && 0 < r.limit <= c.maxLines
    && 0 <= r.offset <= MAX_READ_RANGE_INTEGER
    && r.limit <= MAX_READ_RANGE_INTEGER - r.offset
  }

  function RangeOutcome(c: Config, call: Call, r: Range, glitch: Glitch): Outcome
    requires RangeQuery(c, call, r).Valid()
  {
    match glitch
    case Changed => Proved(FileChanged)
    case Unreadable => ProofFailed
    case Steady => Proved(Meaning(call.data, RangeQuery(c, call, r)))
  }

  function DefaultRange(c: Config): Range {
    Range(0, c.maxLines)
  }

  function RequestedOutcome(c: Config, call: Call): Outcome
    requires c.Valid()
  {
    if call.requested.Some? && ValidRange(c, call.requested.value) then
      RangeOutcome(c, call, call.requested.value, call.first)
    else InvalidRange
  }

  /** The valve is tried: a third attempt, never fired, on a file that held still. */
  predicate ValveTried(c: Config, call: Call, peek: Entry)
    requires c.Valid()
  {
    && RequestedOutcome(c, call) !in {Proved(Allowed), Proved(FileChanged)}
    && peek.count + 1 == 3
    && !peek.valveUsed
  }

  function Decide(c: Config, t: Table, call: Call): Decision
    requires c.Valid()
  {
    if call.size <= c.contentLimit then Decision(PassThrough, None)
    else
      var peek := Lookup(t, call.fp);
      var outcome := RequestedOutcome(c, call);
      if ValveTried(c, call, peek) && RangeOutcome(c, call, DefaultRange(c), call.second) == Proved(Allowed) then
        Decision(Offer(DefaultRange(c)), Some(Recording(call.fp, call.now, true)))
      else if outcome == Proved(Allowed) then Decision(PassThrough, None)
      else
        var count := peek.count + 1;
        var reason := if peek.valveUsed then Exhausted else if count >= 3 then OverBudget else Ladder(outcome);
        Decision(Deny(reason, count), Some(Recording(call.fp, call.now, false)))
  }

  function Recordings(c: Config, calls: seq<Call>): seq<Recording>
    requires c.Valid()
  {
    if calls == [] then []
    else
      var before := Recordings(c, calls[..|calls| - 1]);
      var d := Decide(c, TableAfter(before), calls[|calls| - 1]);
      if d.recording.None? then before else before + [d.recording.value]
  }

  /** The decision on the call at this position of a run from an empty table. */
  function DecisionAt(c: Config, calls: seq<Call>, at: nat): Decision
    requires c.Valid() && at < |calls|
  {
    Decide(c, TableAfter(Recordings(c, calls[..at])), calls[at])
  }

  /** The stateful hook: peek, decide, then commit the recording if there is one. */
  method HandleCall(c: Config, table: AttemptTable, call: Call) returns (response: Response)
    requires c.Valid()
    modifies table
    ensures var d := Decide(c, old(table.items), call);
      && response == d.response
      && table.items == if d.recording.None? then old(table.items) else Recorded(old(table.items), d.recording.value)
  {
    if call.size <= c.contentLimit {
      return PassThrough;
    }
    var peek := table.Peek(call.fp);
    var outcome := RequestedOutcome(c, call);
    var offer := None;
    if outcome !in {Proved(Allowed), Proved(FileChanged)} && peek.count + 1 == 3 && !peek.valveUsed {
      if RangeOutcome(c, call, DefaultRange(c), call.second) == Proved(Allowed) {
        outcome := Proved(Allowed);
        offer := Some(DefaultRange(c));
      }
    }
    if outcome == Proved(Allowed) {
      if offer.None? {
        return PassThrough;
      }
      var _ := table.Record(call.fp, call.now, true);
      return Offer(offer.value);
    }
    var count := table.Record(call.fp, call.now, false);
    if peek.valveUsed {
      return Deny(Exhausted, count);
    }
    return Deny(if count >= 3 then OverBudget else Ladder(outcome), count);
  }

  // ---- The escape valve ----

  lemma {:induction false} FiredOnlyOnThird(c: Config, calls: seq<Call>, fp: Fingerprint)
    requires c.Valid()
    ensures var rs := Recordings(c, calls); FiredSinceEntry(rs, fp) ==> SinceEntry(rs, fp) >= 3
  {
    if calls != [] {
      var before := Recordings(c, calls[..|calls| - 1]);
      FiredOnlyOnThird(c, calls[..|calls| - 1], fp);
      var d := Decide(c, TableAfter(before), calls[|calls| - 1]);
      if d.recording.Some? {
        assert (before + [d.recording.value])[..|before|] == before;
        EntryCounts(before, fp);
      }
    }
  }

  /** The valve opens exactly on the third recorded attempt since the
      fingerprint entered the table, when the request itself is denied on a
      file that held still and the default range passes the proof. */
  lemma ValveOpensExactlyOnThird(c: Config, calls: seq<Call>, at: nat)
    requires c.Valid() && at < |calls|
    ensures var call := calls[at];
      DecisionAt(c, calls, at).response.Offer? <==>
      && call.size > c.contentLimit
      && RequestedOutcome(c, call) !in {Proved(Allowed), Proved(FileChanged)}
      && SinceEntry(Recordings(c, calls[..at]), call.fp) == 2
      && RangeOutcome(c, call, DefaultRange(c), call.second) == Proved(Allowed)
  {
    var rs := Recordings(c, calls[..at]);
    EntryCounts(rs, calls[at].fp);
    FiredOnlyOnThird(c, calls[..at], calls[at].fp);
  }

  /** The offered range is the default one, passed the proof, and selects at
      most the content limit plus one line feed per line. */
  lemma OfferedRangeIsSmall(c: Config, calls: seq<Call>, at: nat)
    requires c.Valid() && at < |calls| && DecisionAt(c, calls, at).response.Offer?
    ensures var call := calls[at];
      var range := DecisionAt(c, calls, at).response.range;
      var q := RangeQuery(c, call, range);
      && range == DefaultRange(c) && Meaning(call.data, q) == Allowed
      && Selected(call.data, q, Min(|call.data|, call.size)) <= c.contentLimit + c.maxLines
  {
    AllowedIsSmall(calls[at].data, RangeQuery(c, calls[at], DefaultRange(c)));
  }

  lemma RecordingsExtend(c: Config, calls: seq<Call>, at: nat)
    requires c.Valid() && at < |calls|
    ensures var d := DecisionAt(c, calls, at);
      Recordings(c, calls[..at + 1]) ==
      if d.recording.None? then Recordings(c, calls[..at]) else Recordings(c, calls[..at]) + [d.recording.value]
  {
    assert calls[..at + 1][..at] == calls[..at];
  }

  /** The fingerprint is in the table before the call at this position. */
  predicate InTable(c: Config, calls: seq<Call>, at: nat, fp: Fingerprint)
    requires c.Valid() && at <= |calls|
  {
    fp in Keys(TableAfter(Recordings(c, calls[..at])))
  }

  /** One call never lowers the count of a fingerprint that stays. */
  lemma CountGrows(c: Config, calls: seq<Call>, at: nat, fp: Fingerprint)
    requires c.Valid() && at < |calls| && InTable(c, calls, at + 1, fp)
    ensures SinceEntry(Recordings(c, calls[..at + 1]), fp) >= SinceEntry(Recordings(c, calls[..at]), fp)
    ensures DecisionAt(c, calls, at).response.Offer? && calls[at].fp == fp ==>
              SinceEntry(Recordings(c, calls[..at + 1]), fp) >= 3
  {
    var before := Recordings(c, calls[..at]);
    RecordingsExtend(c, calls, at);
    ValveOpensExactlyOnThird(c, calls, at);
    var d := DecisionAt(c, calls, at);
    if d.recording.Some? {
      assert (before + [d.recording.value])[..|before|] == before;
    }
  }

  lemma {:induction false} StaysAtLeast(count: nat -> nat, least: nat, i: nat, j: nat)
    requires i < j && count(i + 1) >= least
    requires forall m: nat :: i < m < j ==> count(m + 1) >= count(m)
    ensures count(j) >= least
  {
    if i + 1 < j {
      StaysAtLeast(count, least, i, j - 1);
      assert count(j - 1 + 1) >= count(j - 1);
    }
  }

  function CountAt(c: Config, calls: seq<Call>, fp: Fingerprint): nat -> nat
    requires c.Valid()
  {
    (m: nat) => if m <= |calls| then SinceEntry(Recordings(c, calls[..m]), fp) else 0
  }

  lemma CountAtGrows(c: Config, calls: seq<Call>, fp: Fingerprint, m: nat)
    requires c.Valid() && m < |calls| && InTable(c, calls, m + 1, fp)
    ensures CountAt(c, calls, fp)(m + 1) >= CountAt(c, calls, fp)(m)
    ensures calls[m].fp == fp && DecisionAt(c, calls, m).response.Offer? ==> CountAt(c, calls, fp)(m + 1) >= 3
  {
    CountGrows(c, calls, m, fp);
  }

  lemma StaysPastThird(c: Config, calls: seq<Call>, i: nat, j: nat, fp: Fingerprint)
    requires c.Valid() && i < j <= |calls|
    requires calls[i].fp == fp && DecisionAt(c, calls, i).response.Offer?
    requires forall m :: i < m <= j ==> InTable(c, calls, m, fp)
    ensures CountAt(c, calls, fp)(j) >= 3
  {
    assert InTable(c, calls, i + 1, fp);
    CountAtGrows(c, calls, fp, i);
    forall m: nat | i < m < j ensures CountAt(c, calls, fp)(m + 1) >= CountAt(c, calls, fp)(m) {
      assert InTable(c, calls, m + 1, fp);
      CountAtGrows(c, calls, fp, m);
    }
    StaysAtLeast(CountAt(c, calls, fp), 3, i, j);
  }

  /** A fingerprint that stays in the table is offered the valve at most once:
      between two offers it must have been evicted. */
  lemma ValveOpensOncePerStay(c: Config, calls: seq<Call>, i: nat, j: nat)
    requires c.Valid() && i < j < |calls| && calls[i].fp == calls[j].fp
    ensures DecisionAt(c, calls, i).response.Offer? && DecisionAt(c, calls, j).response.Offer?
            ==> exists m :: i < m <= j && !InTable(c, calls, m, calls[i].fp)
  {
    if DecisionAt(c, calls, i).response.Offer? && forall m :: i < m <= j ==> InTable(c, calls, m, calls[i].fp) {
      StaysPastThird(c, calls, i, j, calls[i].fp);
      ValveOpensExactlyOnThird(c, calls, j);
    }
  }

  // ---- What the over-budget reason says ----

  /** One recording counts once at most, and only for its own fingerprint. */
  lemma OneRecording(before: seq<Recording>, r: Recording, fp: Fingerprint)
    ensures var after := before + [r];
      && SinceEntry(after, fp) <= SinceEntry(before, fp) + 1
      && (SinceEntry(after, fp) > SinceEntry(before, fp) ==>
        r.fp == fp && (r.fired ==> FiredSinceEntry(after, fp)))
      && (fp in Keys(TableAfter(after)) && FiredSinceEntry(before, fp) ==> FiredSinceEntry(after, fp))
  {
    assert (before + [r])[..|before|] == before;
  }

  function FiredAt(c: Config, calls: seq<Call>, fp: Fingerprint): nat -> bool
    requires c.Valid()
  {
    (m: nat) => m <= |calls| && FiredSinceEntry(Recordings(c, calls[..m]), fp)
  }

  lemma OneCall(c: Config, calls: seq<Call>, fp: Fingerprint, m: nat)
    requires c.Valid() && m < |calls|
    ensures CountAt(c, calls, fp)(m + 1) <= CountAt(c, calls, fp)(m) + 1
    ensures CountAt(c, calls, fp)(m + 1) > CountAt(c, calls, fp)(m) ==>
      && calls[m].fp == fp && DecisionAt(c, calls, m).recording.Some?
      && (DecisionAt(c, calls, m).recording.value.fired ==> FiredAt(c, calls, fp)(m + 1))
    ensures InTable(c, calls, m + 1, fp) && FiredAt(c, calls, fp)(m) ==> FiredAt(c, calls, fp)(m + 1)
  {
    RecordingsExtend(c, calls, m);
    var d := DecisionAt(c, calls, m);
    if d.recording.Some? {
      OneRecording(Recordings(c, calls[..m]), d.recording.value, fp);
    }
  }

  /** A count that starts at zero and grows by one at most has passed from two
      to three for the last time before it is three or more. */
  lemma {:induction false} LastPassage(count: nat -> nat, at: nat) returns (third: nat)
    requires count(0) == 0 && count(at) >= 3 && forall m: nat :: m < at ==> count(m + 1) <= count(m) + 1
    ensures third < at && count(third) == 2 && count(third + 1) == 3
    ensures forall m: nat :: third < m <= at ==> count(m) >= 3
  {
    if count(at - 1) >= 3 {
      third := LastPassage(count, at - 1);
    } else {
      third := at - 1;
      assert count(third + 1) <= count(third) + 1;
    }
  }

  lemma {:induction false} Lasts(holds: nat -> bool, i: nat, j: nat)
    requires i <= j && holds(i) && forall m: nat :: i <= m < j && holds(m) ==> holds(m + 1)
    ensures holds(j)
  {
    if i < j {
      Lasts(holds, i, j - 1);
      assert holds(j - 1 + 1);
    }
  }

  lemma FiredLasts(c: Config, calls: seq<Call>, fp: Fingerprint, i: nat, j: nat)
    requires c.Valid() && i <= j <= |calls| && FiredAt(c, calls, fp)(i)
    requires forall m :: i < m <= j ==> InTable(c, calls, m, fp)
    ensures FiredAt(c, calls, fp)(j)
  {
    forall m: nat | i <= m < j && FiredAt(c, calls, fp)(m) ensures FiredAt(c, calls, fp)(m + 1) {
      assert InTable(c, calls, m + 1, fp);
      OneCall(c, calls, fp, m);
    }
    Lasts(FiredAt(c, calls, fp), i, j);
  }

  lemma CountsByOne(c: Config, calls: seq<Call>, fp: Fingerprint)
    requires c.Valid()
    ensures CountAt(c, calls, fp)(0) == 0
    ensures forall m: nat :: m < |calls| ==> CountAt(c, calls, fp)(m + 1) <= CountAt(c, calls, fp)(m) + 1
  {
    assert calls[..0] == [];
    forall m: nat | m < |calls| ensures CountAt(c, calls, fp)(m + 1) <= CountAt(c, calls, fp)(m) + 1 {
      OneCall(c, calls, fp, m);
    }
  }

  /** A fingerprint that has been recorded is in the table. */
  lemma CountedIsIn(c: Config, calls: seq<Call>, fp: Fingerprint, m: nat)
    requires c.Valid() && m <= |calls| && CountAt(c, calls, fp)(m) > 0
    ensures InTable(c, calls, m, fp)
  {
  }

  lemma CountedAreIn(c: Config, calls: seq<Call>, fp: Fingerprint, i: nat, j: nat)
    requires c.Valid() && j <= |calls| && forall m: nat :: i < m <= j ==> CountAt(c, calls, fp)(m) >= 3
    ensures forall m :: i < m <= j ==> InTable(c, calls, m, fp)
  {
    forall m: nat | i < m <= j ensures InTable(c, calls, m, fp) {
      assert CountAt(c, calls, fp)(m) >= 3;
      CountedIsIn(c, calls, fp, m);
    }
  }

  lemma FiredStays(c: Config, calls: seq<Call>, at: nat, fp: Fingerprint, third: nat)
    requires c.Valid() && third < at <= |calls| && DecisionAt(c, calls, third).recording.Some?
    requires DecisionAt(c, calls, third).recording.value.fired ==> FiredAt(c, calls, fp)(third + 1)
    requires forall m :: third < m <= at ==> InTable(c, calls, m, fp)
    ensures DecisionAt(c, calls, third).recording.value.fired ==> FiredAt(c, calls, fp)(at)
  {
    if DecisionAt(c, calls, third).recording.value.fired {
      FiredLasts(c, calls, fp, third + 1, at);
    }
  }

  lemma LastThird(c: Config, calls: seq<Call>, at: nat, fp: Fingerprint) returns (third: nat)
    requires c.Valid() && at <= |calls| && CountAt(c, calls, fp)(at) >= 3
    ensures third < at && CountAt(c, calls, fp)(third) == 2 && CountAt(c, calls, fp)(third + 1) == 3
    ensures forall m: nat :: third < m <= at ==> CountAt(c, calls, fp)(m) >= 3
  {
    CountsByOne(c, calls, fp);
    third := LastPassage(CountAt(c, calls, fp), at);
  }

  /** The third recording of the stay that a fingerprint is in. */
  lemma ThirdRecording(c: Config, calls: seq<Call>, at: nat, fp: Fingerprint) returns (third: nat)
    requires c.Valid() && at <= |calls| && CountAt(c, calls, fp)(at) >= 3
    ensures third < at && calls[third].fp == fp && DecisionAt(c, calls, third).recording.Some?
    ensures CountAt(c, calls, fp)(third) == 2
    ensures forall m :: third < m <= at ==> InTable(c, calls, m, fp)
    ensures DecisionAt(c, calls, third).recording.value.fired ==> FiredAt(c, calls, fp)(at)
  {
    third := LastThird(c, calls, at, fp);
    OneCall(c, calls, fp, third);
    CountedAreIn(c, calls, fp, third, at);
    FiredStays(c, calls, at, fp, third);
  }

  /** A recorded third attempt that did not fire was either tried and failed, or
      ended with a changed file. */
  lemma ThirdAttempt(c: Config, calls: seq<Call>, at: nat)
    requires c.Valid() && at < |calls| && SinceEntry(Recordings(c, calls[..at]), calls[at].fp) == 2
    requires DecisionAt(c, calls, at).recording.Some? && !DecisionAt(c, calls, at).recording.value.fired
    ensures DecisionAt(c, calls, at).response.Deny? && DecisionAt(c, calls, at).response.reason == OverBudget
    ensures var call := calls[at];
      && (ValveTried(c, call, Lookup(TableAfter(Recordings(c, calls[..at])), call.fp))
          <==> RequestedOutcome(c, call) != Proved(FileChanged))
      && (RequestedOutcome(c, call) != Proved(FileChanged) ==>
          RangeOutcome(c, call, DefaultRange(c), call.second) != Proved(Allowed))
  {
    var rs := Recordings(c, calls[..at]);
    EntryCounts(rs, calls[at].fp);
    FiredOnlyOnThird(c, calls[..at], calls[at].fp);
  }

  /** The over-budget reason says that the default range was tried and failed.
      Whichever attempt gets it, the valve's one chance was the third recording
      of the stay, and there it was tried, and failed, if and only if the
      requested proof did not end with a changed file. */
  lemma OverBudgetMeansTried(c: Config, calls: seq<Call>, at: nat) returns (third: nat)
    requires c.Valid() && at < |calls|
    requires DecisionAt(c, calls, at).response.Deny? && DecisionAt(c, calls, at).response.reason == OverBudget
    ensures third <= at && calls[third].fp == calls[at].fp && DecisionAt(c, calls, third).recording.Some?
    ensures SinceEntry(Recordings(c, calls[..third]), calls[at].fp) == 2
    ensures forall m :: third < m <= at ==> InTable(c, calls, m, calls[at].fp)
    ensures var call := calls[third];
      && (ValveTried(c, call, Lookup(TableAfter(Recordings(c, calls[..third])), call.fp))
          <==> RequestedOutcome(c, call) != Proved(FileChanged))
      && (RequestedOutcome(c, call) != Proved(FileChanged) ==>
          RangeOutcome(c, call, DefaultRange(c), call.second) != Proved(Allowed))
  {
    var fp := calls[at].fp;
    var rs := Recordings(c, calls[..at]);
    EntryCounts(rs, fp);
    if SinceEntry(rs, fp) == 2 {
      third := at;
    } else {
      third := ThirdRecording(c, calls, at, fp);
    }
    ThirdAttempt(c, calls, third);
  }

  /** A second attempt leaves one entry with count two that never fired. */
  lemma TwoAttempts(c: Config, a: Call)
    requires c.Valid() && a.size > c.contentLimit && a.requested.None?
    ensures var rs := Recordings(c, [a, a]);
      rs == [Recording(a.fp, a.now, false), Recording(a.fp, a.now, false)]
  {
    var none: seq<Call>, one := [], [a];
    assert one[..0] == none && [a, a][..1] == one;
    assert Recordings(c, none) == [];
    assert Recordings(c, one) == [Recording(a.fp, a.now, false)];
    EntryCounts(Recordings(c, one), a.fp);
    FiredOnlyOnThird(c, one, a.fp);
  }

  lemma JustRecorded(before: seq<Recording>, r: Recording)
    ensures r.fp in Keys(TableAfter(before + [r]))
    ensures SinceEntry(before + [r], r.fp) == SinceEntry(before, r.fp) + 1
  {
    var rs := before + [r];
    assert rs[..|before|] == before;
    KeysRecorded(TableAfter(before), r);
    var keys := Keys(TableAfter(rs));
    assert keys[|keys| - 1] == r.fp;
  }

  lemma CountedTwice(r: Recording)
    ensures SinceEntry([r, r], r.fp) == 2
  {
    var none: seq<Recording> := [];
    JustRecorded(none, r);
    JustRecorded(none + [r], r);
    assert [r, r] == none + [r] + [r];
  }

  /** The reason need not be true: when the file changes under the third
      attempt's requested range, that attempt is denied as over budget and the
      default range has never been tried. */
  lemma OverBudgetUntried(c: Config, a: Call)
    returns (calls: seq<Call>)
    requires c.Valid() && a.size > c.contentLimit && a.requested.None?
    ensures calls == [a, a, a.(requested := Some(Range(0, 1)), first := Changed)]
    ensures DecisionAt(c, calls, 2).response == Deny(OverBudget, 3)
    ensures RequestedOutcome(c, calls[2]) == Proved(FileChanged)
    ensures forall i: nat :: i < 3 ==>
              !ValveTried(c, calls[i], Lookup(TableAfter(Recordings(c, calls[..i])), calls[i].fp))
  {
    var r := Recording(a.fp, a.now, false);
    calls := [a, a, a.(requested := Some(Range(0, 1)), first := Changed)];
    assert calls[..2] == [a, a];
    TwoAttempts(c, a);
    CountedTwice(r);
    EntryCounts([r, r], a.fp);
    FiredOnlyOnThird(c, calls[..2], a.fp);
  }

  /** On the third attempt itself the reason is given whenever it is denied. */
  lemma ThirdDenialIsOverBudget(c: Config, calls: seq<Call>, at: nat)
    requires c.Valid() && at < |calls|
    requires SinceEntry(Recordings(c, calls[..at]), calls[at].fp) == 2
    requires DecisionAt(c, calls, at).response.Deny?
    ensures DecisionAt(c, calls, at).response.reason == OverBudget
  {
    ThirdAttempt(c, calls, at);
  }

  // ---- Every response ----

  /** The hook's whole answer, from the call itself and the recordings of its
      fingerprint since that entered the table: what is small or proven small
      passes; else the third attempt is offered the default range if that is
      proven small; else the call is denied, with the ladder of advice at first,
      as exhausted after an offer, and as over budget from the third attempt on. */
  lemma {:induction false} EveryResponse(c: Config, calls: seq<Call>, at: nat)
    requires c.Valid() && at < |calls|
    ensures var call, rs := calls[at], Recordings(c, calls[..at]);
      var attempts, fired := Min(SinceEntry(rs, call.fp), MAX_COUNT) + 1, FiredSinceEntry(rs, call.fp);
      var outcome := RequestedOutcome(c, call);
      DecisionAt(c, calls, at).response ==
      if call.size <= c.contentLimit || outcome == Proved(Allowed) then PassThrough
      else if attempts == 3 && outcome != Proved(FileChanged)
              && RangeOutcome(c, call, DefaultRange(c), call.second) == Proved(Allowed)
      then Offer(Range(0, c.maxLines))
      else Deny(if fired then Exhausted else if attempts >= 3 then OverBudget else Ladder(outcome), attempts)
  {
    EntryCounts(Recordings(c, calls[..at]), calls[at].fp);
    FiredOnlyOnThird(c, calls[..at], calls[at].fp);
  }

  lemma {:induction false} DecisionRecords(c: Config, t: Table, call: Call)
    requires c.Valid()
    ensures var d := Decide(c, t, call);
      d.recording == if d.response.PassThrough? then None
                     else Some(Recording(call.fp, call.now, d.response.Offer?))
  {
  }

  /** A call leaves a recording exactly when it is offered a range or denied,
      and the recording says which. */
  lemma {:induction false} EveryRecording(c: Config, calls: seq<Call>, at: nat)
    requires c.Valid() && at < |calls|
    ensures var d, call := DecisionAt(c, calls, at), calls[at];
      if d.response.PassThrough? then Recordings(c, calls[..at + 1]) == Recordings(c, calls[..at])
      else Recordings(c, calls[..at + 1])
           == Recordings(c, calls[..at]) + [Recording(call.fp, call.now, d.response.Offer?)]
  {
    RecordingsExtend(c, calls, at);
    DecisionRecords(c, TableAfter(Recordings(c, calls[..at])), calls[at]);
  }
}
