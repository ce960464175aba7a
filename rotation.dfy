/**
 * The day-of-week rotation shared by both player hooks: which records are
 * eligible today, what one `playNextMedia` call shows, and where the
 * rotation index goes next.
 */
module Rotation {
  import opened Seqs
  import opened Types

  /** `new Date().getDay()`: 0 is Sunday, 6 is Saturday. */
  type Weekday = d: int | 0 <= d < 7

  /** The folder name of each weekday, indexed by `getDay()`. */
  const DayNames: seq<string> := ["domingo", "segunda", "terça", "quarta", "quinta", "sexta", "sábado"]

  /** The folder that plays every day. */
  const EveryDay: string := "todos"

  predicate IsEligible(f: MediaFile, day: Weekday) {
    (f.folder == EveryDay || f.folder == DayNames[day]) && !f.hidden
  }

  /** `getCurrentDayMedia`: the eligible records in list order. */
  function Eligible(files: seq<MediaFile>, day: Weekday): seq<MediaFile> {
    Filter(files, (f: MediaFile) => IsEligible(f, day))
  }

  /** The eligible list holds exactly the visible records filed under "todos" or
      under today's name, and keeps the order of the fetched list. */
  lemma EligibleSpec(files: seq<MediaFile>, more: seq<MediaFile>, day: Weekday)
    ensures forall x :: x in Eligible(files, day) <==>
              x in files && (x.folder == EveryDay || x.folder == DayNames[day]) && !x.hidden
    ensures Eligible(files + more, day) == Eligible(files, day) + Eligible(more, day)
  {
    FilterExactly(files, (f: MediaFile) => IsEligible(f, day));
    FilterConcat(files, more, (f: MediaFile) => IsEligible(f, day));
  }

  /** A hidden record is never eligible; a visible "todos" record is eligible
      every day; a visible record filed under a weekday name is eligible on that
      weekday only. */
  lemma EligibilityByFolder(f: MediaFile, day: Weekday, named: Weekday)
    ensures f.hidden ==> !IsEligible(f, day)
    ensures f.folder == EveryDay && !f.hidden ==> IsEligible(f, day)
    ensures f.folder == DayNames[named] ==> (IsEligible(f, day) <==> day == named && !f.hidden)
  {
    assert forall d: Weekday :: DayNames[d] != EveryDay;
    assert forall d: Weekday, e: Weekday :: DayNames[d] == DayNames[e] ==> d == e;
  }

  /** A list of visible "todos" records plays in full, in order, on every day. */
  lemma EveryDayListPlaysInFull(files: seq<MediaFile>, day: Weekday)
    requires forall i :: 0 <= i < |files| ==> files[i].folder == EveryDay && !files[i].hidden
    ensures Eligible(files, day) == files
  {
    FilterAllPass(files, (f: MediaFile) => IsEligible(f, day));
  }

  /** What one `playNextMedia` call does with the eligible list. */
  datatype PlayOutcome =
    | NothingToPlay           // empty list: current media cleared, playback stopped
    | Showing(media: MediaFile) // `eligible[currentIndex]` is published
    | UndefinedMedia          // index past the end: `eligible[currentIndex]` is undefined
                              // and dereferencing it throws, before any state changes

  function NextOutcome(eligible: seq<MediaFile>, index: nat): PlayOutcome {
    if |eligible| == 0 then NothingToPlay
    else if index < |eligible| then Showing(eligible[index])
    else UndefinedMedia
  }

  /** The rotation index after that call: advanced modulo the list length only
      when a record was shown. */
  function IndexAfter(eligible: seq<MediaFile>, index: nat): nat {
    if 0 < |eligible| && index < |eligible| then (index + 1) % |eligible| else index
  }

  /** An index inside a non-empty list shows its record and stays inside it;
      an index past the end of a non-empty list is the unchecked read. */
  lemma AdvanceInRange(eligible: seq<MediaFile>, index: nat)
    requires 0 < |eligible|
    ensures index < |eligible| ==>
              NextOutcome(eligible, index) == Showing(eligible[index]) &&
              IndexAfter(eligible, index) < |eligible|
    ensures index >= |eligible| <==> NextOutcome(eligible, index) == UndefinedMedia
  {
  }

  /** The records shown by `k` consecutive calls on an unchanged list. */
  function Shown(eligible: seq<MediaFile>, index: nat, k: nat): seq<MediaFile>
    decreases k
  {
    if k == 0 then []
    else match NextOutcome(eligible, index)
      case Showing(m) => [m] + Shown(eligible, IndexAfter(eligible, index), k - 1)
      case _ => []
  }

  /** The rotation index after `k` consecutive calls on an unchanged list. */
  function IndexAfterCalls(eligible: seq<MediaFile>, index: nat, k: nat): nat
    decreases k
  {
    if k == 0 then index else IndexAfterCalls(eligible, IndexAfter(eligible, index), k - 1)
  }

  /** The list read from position `i`, wrapping around to its start. */
  function RotatedAt(s: seq<MediaFile>, i: nat): seq<MediaFile>
    requires i <= |s|
  {
    s[i..] + s[..i]
  }

  /** Advancing from inside the list moves to the next position, or back to the
      first one from the last. */
  lemma IndexAfterStep(eligible: seq<MediaFile>, i: nat)
    requires i < |eligible|
    ensures IndexAfter(eligible, i) == if i + 1 < |eligible| then i + 1 else 0
  {
    var n := |eligible|;
    assert (i + 1) % n == if i + 1 < n then i + 1 else 0;
  }

  /** Reading the rotation at `i` without its head is reading the rotation
      at the next index without its last element. */
  lemma RotationStep(s: seq<MediaFile>, i: nat)
    requires i < |s|
    ensures RotatedAt(s, i)[1..] == RotatedAt(s, if i + 1 < |s| then i + 1 else 0)[..|s| - 1]
  {
    if i + 1 < |s| {
      assert RotatedAt(s, i + 1) == s[i + 1..] + s[..i] + [s[i]];
    } else {
      assert RotatedAt(s, 0) == s;
    }
  }

  lemma {:induction false} IndexAfterCallsWraps(eligible: seq<MediaFile>, i: nat, k: nat)
    requires i < |eligible| && k <= |eligible|
    ensures IndexAfterCalls(eligible, i, k) ==
              if i + k < |eligible| then i + k else i + k - |eligible|
    decreases k
  {
    if k > 0 {
      IndexAfterStep(eligible, i);
      IndexAfterCallsWraps(eligible, IndexAfter(eligible, i), k - 1);
    }
  }

  lemma ShownStep(eligible: seq<MediaFile>, i: nat, k: nat)
    requires i < |eligible| && 0 < k
    ensures Shown(eligible, i, k) == [eligible[i]] + Shown(eligible, IndexAfter(eligible, i), k - 1)
  {
  }

  lemma {:induction false} ShownIsRotation(eligible: seq<MediaFile>, i: nat, k: nat)
    requires i < |eligible| && k <= |eligible|
    ensures Shown(eligible, i, k) == RotatedAt(eligible, i)[..k]
    decreases k
  {
    if k > 0 {
      IndexAfterStep(eligible, i);
      ShownStep(eligible, i, k);
      ShownIsRotation(eligible, IndexAfter(eligible, i), k - 1);
      RotationStep(eligible, i);
      var r := RotatedAt(eligible, i);
      assert r[..k] == [r[0]] + r[1..][..k - 1];
    }
  }

  /** Round-robin closure: from any index inside a list of length N, N calls
      show every eligible record once each, starting at that index and wrapping
      around, and bring the index back to where it started. */
  lemma RoundRobinClosure(eligible: seq<MediaFile>, i: nat)
    requires i < |eligible|
    ensures Shown(eligible, i, |eligible|) == eligible[i..] + eligible[..i]
    ensures multiset(Shown(eligible, i, |eligible|)) == multiset(eligible)
    ensures IndexAfterCalls(eligible, i, |eligible|) == i
  {
    ShownIsRotation(eligible, i, |eligible|);
    IndexAfterCallsWraps(eligible, i, |eligible|);
    assert eligible == eligible[..i] + eligible[i..];
  }
}
