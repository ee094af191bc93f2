/** The list of stored sessions, most recently updated first. */
module SessionList {
  import opened Prelude
  import C = Calendar
  import S = Store

  predicate Matches(session: S.Session, cwd: Option<string>) {
    cwd.None? || session.settings.cwd == cwd.value
  }

  /** A directory entry: its name, and the session it holds if it can be read as one. */
  datatype File = File(name: string, session: Option<S.Session>)

  /** A name with the extension `json` that is not the name of an old snapshot. */
  predicate IsSessionName(name: string) {
    EndsWith(name, ".json") && |name| > 5 && !EndsWith(name, ".snap.json")
  }

  predicate IsListed(file: File, cwd: Option<string>) {
    IsSessionName(file.name) && file.session.Some? && Matches(file.session.value, cwd)
  }

  /** The sessions of the directory that are listed, in directory order. */
  function Readable(files: seq<File>, cwd: Option<string>): seq<S.Session> {
    if files == [] then []
    else
      var last := files[|files| - 1];
      Readable(files[..|files| - 1], cwd) + (if IsListed(last, cwd) then [last.session.value] else [])
  }

  /** The sessions with this stamp, in order. */
  function Stamped(sessions: seq<S.Session>, stamp: string): seq<S.Session> {
    if sessions == [] then []
    else (if sessions[0].updatedAt == stamp then [sessions[0]] else []) + Stamped(sessions[1..], stamp)
  }

  lemma {:induction false} StampedAppend(a: seq<S.Session>, b: seq<S.Session>, stamp: string)
    ensures Stamped(a + b, stamp) == Stamped(a, stamp) + Stamped(b, stamp)
  {
    if a == [] {
      assert a + b == b;
    } else {
      assert (a + b)[1..] == a[1..] + b;
      StampedAppend(a[1..], b, stamp);
      var first := if a[0].updatedAt == stamp then [a[0]] else [];
      Associative(first, Stamped(a[1..], stamp), Stamped(b, stamp));
    }
  }

  lemma {:induction false} NoneStamped(sessions: seq<S.Session>, stamp: string)
    requires forall s | s in sessions :: s.updatedAt != stamp
    ensures Stamped(sessions, stamp) == []
  {
    if sessions != [] { NoneStamped(sessions[1..], stamp); }
  }

  /** Sessions with equal stamps are in the same order in both lists. */
  ghost predicate SameOrder(a: seq<S.Session>, b: seq<S.Session>) {
    forall stamp :: Stamped(a, stamp) == Stamped(b, stamp)
  }

  /** No session is listed before one that was updated after it. */
  ghost predicate NewestFirst(out: seq<S.Session>) {
    forall i, j | 0 <= i < j < |out| :: !C.Less(out[i].updatedAt, out[j].updatedAt)
  }

  lemma {:induction false} LessTransitive(a: string, b: string, c: string)
    ensures C.Less(a, b) && !C.Less(c, b) ==> C.Less(a, c)
    decreases |b|
  {
    if a != "" && b != "" && c != "" { LessTransitive(a[1..], b[1..], c[1..]); }
  }

  /** Where a session goes in a sorted list: after every session that is not older. */
  method Place(out: seq<S.Session>, session: S.Session) returns (k: nat)
    requires NewestFirst(out)
    ensures k <= |out|
    ensures forall i | 0 <= i < k :: !C.Less(out[i].updatedAt, session.updatedAt)
    ensures forall i | k <= i < |out| :: C.Less(out[i].updatedAt, session.updatedAt)
  {
    k := |out|;
    while k > 0 && C.Less(out[k - 1].updatedAt, session.updatedAt)
      invariant 0 <= k <= |out|
      invariant forall i | k <= i < |out| :: C.Less(out[i].updatedAt, session.updatedAt)
    {
      k := k - 1;
    }
    forall i | 0 <= i < k
      ensures !C.Less(out[i].updatedAt, session.updatedAt)
    {
      if i < k - 1 { LessTransitive(out[i].updatedAt, session.updatedAt, out[k - 1].updatedAt); }
    }
  }

  lemma PlacedStaysSorted(out: seq<S.Session>, session: S.Session, k: nat)
    requires NewestFirst(out) && k <= |out|
    requires forall i | 0 <= i < k :: !C.Less(out[i].updatedAt, session.updatedAt)
    requires forall i | k <= i < |out| :: C.Less(out[i].updatedAt, session.updatedAt)
    ensures NewestFirst(out[..k] + [session] + out[k..])
  {
    forall i | k <= i < |out|
      ensures !C.Less(session.updatedAt, out[i].updatedAt)
    {
      LessAsymmetric(out[i].updatedAt, session.updatedAt);
    }
  }

  lemma {:induction false} LessAsymmetric(a: string, b: string)
    ensures C.Less(a, b) ==> !C.Less(b, a)
    decreases |a|
  {
    if a != "" && b != "" { LessAsymmetric(a[1..], b[1..]); }
  }

  lemma {:induction false} LessIrreflexive(a: string)
    ensures !C.Less(a, a)
  {
    if a != "" { LessIrreflexive(a[1..]); }
  }

  lemma OlderAreNotStamped(older: seq<S.Session>, stamp: string)
    requires forall i | 0 <= i < |older| :: C.Less(older[i].updatedAt, stamp)
    ensures Stamped(older, stamp) == []
  {
    LessIrreflexive(stamp);
    NoneStamped(older, stamp);
  }

  lemma LastOfItsStamp(a: seq<S.Session>, session: S.Session, b: seq<S.Session>, stamp: string)
    requires Stamped(b, session.updatedAt) == []
    ensures Stamped(a + [session] + b, stamp) == Stamped(a + b, stamp) + Stamped([session], stamp)
  {
    StampedAppend(a + [session], b, stamp);
    StampedAppend(a, [session], stamp);
    StampedAppend(a, b, stamp);
    if stamp != session.updatedAt { NoneStamped([session], stamp); }
  }

  lemma PlacedKeepsOrder(out: seq<S.Session>, before: seq<S.Session>, session: S.Session, k: nat)
    requires SameOrder(out, before)
    requires k <= |out| && forall i | k <= i < |out| :: C.Less(out[i].updatedAt, session.updatedAt)
    ensures SameOrder(out[..k] + [session] + out[k..], before + [session])
  {
    OlderAreNotStamped(out[k..], session.updatedAt);
    forall stamp
      ensures Stamped(out[..k] + [session] + out[k..], stamp) == Stamped(before + [session], stamp)
    {
      LastOfItsStamp(out[..k], session, out[k..], stamp);
      assert out == out[..k] + out[k..];
      StampedAppend(before, [session], stamp);
    }
  }

  lemma PlacedKeepsAll(out: seq<S.Session>, session: S.Session, k: nat)
    requires k <= |out|
    ensures multiset(out[..k] + [session] + out[k..]) == multiset(out) + multiset([session])
  {
    assert out == out[..k] + out[k..];
  }

  /** A list and its sessions in directory order. */
  ghost predicate Sorted(out: seq<S.Session>, found: seq<S.Session>) {
    multiset(out) == multiset(found) && NewestFirst(out) && SameOrder(out, found)
  }

  method Insert(out: seq<S.Session>, session: S.Session, ghost found: seq<S.Session>) returns (longer: seq<S.Session>)
    requires Sorted(out, found)
    ensures Sorted(longer, found + [session])
  {
    var k := Place(out, session);
    PlacedStaysSorted(out, session, k);
    PlacedKeepsAll(out, session, k);
    PlacedKeepsOrder(out, found, session, k);
    longer := out[..k] + [session] + out[k..];
  }

  lemma ReadableNext(files: seq<File>, n: nat, cwd: Option<string>)
    requires n < |files|
    ensures Readable(files[..n + 1], cwd)
         == if IsListed(files[n], cwd) then Readable(files[..n], cwd) + [files[n].session.value]
            else Readable(files[..n], cwd)
  {
    assert files[..n + 1][..n] == files[..n];
    assert Readable(files[..n], cwd) + [] == Readable(files[..n], cwd);
  }

  /** `list`: every session that is listed, exactly once, newest first; equal stamps stay in directory order. */
  method List(files: seq<File>, cwd: Option<string>) returns (out: seq<S.Session>)
    ensures Sorted(out, Readable(files, cwd))
  {
    out := [];
    for n := 0 to |files|
      invariant Sorted(out, Readable(files[..n], cwd))
    {
      ReadableNext(files, n, cwd);
      if IsListed(files[n], cwd) {
        out := Insert(out, files[n].session.value, Readable(files[..n], cwd));
      }
    }
    assert files[..|files|] == files;
  }

  /** With time stamps up to the year 9999, the list is in the order of time. */
  lemma ListedByTime(out: seq<S.Session>, time: seq<nat>, i: nat, j: nat)
    requires NewestFirst(out) && |time| == |out| && i < j < |out|
    requires forall k | 0 <= k < |out| ::
      out[k].updatedAt == C.Iso(time[k]) && C.CivilFromDays(time[k] / 86_400).year <= 9999
    ensures time[i] >= time[j]
  {
    C.StampsSortByTime(time[i], time[j]);
  }
}
