/** Emergency compaction of a conversation: which whole turns are evicted to fit a size target. */
module Compaction {
  import opened Prelude

  const PRESERVE_TURNS: nat := 10

  // ---------- turns ----------

  /** `turns` cuts `messages` before every user message, and nowhere else. */
  ghost predicate IsSplit<T>(turns: seq<seq<T>>, messages: seq<T>, isUser: T -> bool) {
    && Flatten(turns) == messages
    && (forall t | 0 <= t < |turns| :: turns[t] != [])
    && (forall t | 0 < t < |turns| :: isUser(turns[t][0]))
    && (forall t, k | 0 <= t < |turns| && 0 < k < |turns[t]| :: !isUser(turns[t][k]))
  }

  lemma FlattenHead<T>(turns: seq<seq<T>>, messages: seq<T>, isUser: T -> bool)
    requires IsSplit(turns, messages, isUser)
    ensures turns == [] <==> messages == []
    ensures turns != [] ==> var n := |turns[0]|;
      && 0 < n <= |messages| && turns[0] == messages[..n] && Flatten(turns[1..]) == messages[n..]
      && (forall k | 0 < k < n :: !isUser(messages[k]))
      && (n < |messages| ==> isUser(messages[n]))
  {
  }

  /** There is only one way to cut a conversation into turns. */
  lemma {:induction false} SplitIsUnique<T>(a: seq<seq<T>>, b: seq<seq<T>>, messages: seq<T>, isUser: T -> bool)
    requires IsSplit(a, messages, isUser) && IsSplit(b, messages, isUser)
    ensures a == b
    decreases |a|
  {
    FlattenHead(a, messages, isUser);
    FlattenHead(b, messages, isUser);
    if a != [] {
      SplitTail(a, messages, isUser);
      SplitTail(b, messages, isUser);
      SplitIsUnique(a[1..], b[1..], messages[|a[0]|..], isUser);
      assert a == [a[0]] + a[1..] && b == [b[0]] + b[1..];
    }
  }

  lemma SplitTail<T>(turns: seq<seq<T>>, messages: seq<T>, isUser: T -> bool)
    requires IsSplit(turns, messages, isUser) && turns != []
    ensures IsSplit(turns[1..], messages[|turns[0]|..], isUser)
  {
  }

  /** What belongs to one turn: no user message, except at its start. */
  ghost predicate IsTurn<T>(current: seq<T>, isUser: T -> bool, first: bool) {
    && current != [] && (first || isUser(current[0]))
    && forall j | 0 < j < |current| :: !isUser(current[j])
  }

  lemma SplitSnoc<T>(turns: seq<seq<T>>, current: seq<T>, messages: seq<T>, isUser: T -> bool)
    requires IsSplit(turns, messages, isUser) && IsTurn(current, isUser, turns == [])
    ensures IsSplit(turns + [current], messages + current, isUser)
  {
    FlattenSnoc(turns, current);
  }

  /** Cuts the messages before every user message. */
  method SplitTurns<T>(messages: seq<T>, isUser: T -> bool) returns (turns: seq<seq<T>>)
    ensures IsSplit(turns, messages, isUser)
  {
    turns := [];
    var current: seq<T> := [];
    ghost var cut: seq<T> := [];
    for k := 0 to |messages|
      invariant IsSplit(turns, cut, isUser) && cut + current == messages[..k]
      invariant if k == 0 then turns == [] && current == [] else IsTurn(current, isUser, turns == [])
    {
      if isUser(messages[k]) && current != [] {
        SplitSnoc(turns, current, cut, isUser);
        turns, cut := turns + [current], cut + current;
        current := [];
      }
      assert messages[..k + 1] == messages[..k] + [messages[k]];
      current := current + [messages[k]];
    }
    assert messages[..|messages|] == messages;
    if current != [] {
      SplitSnoc(turns, current, cut, isUser);
      turns := turns + [current];
    }
  }

  // ---------- sizes ----------

  function Size<T>(messages: seq<T>, size: T -> nat): nat {
    if messages == [] then 0 else size(messages[0]) + Size(messages[1..], size)
  }

  lemma {:induction false} SizeAppend<T>(a: seq<T>, b: seq<T>, size: T -> nat)
    ensures Size(a + b, size) == Size(a, size) + Size(b, size)
  {
    if a == [] {
      assert a + b == b;
    } else {
      assert (a + b)[1..] == a[1..] + b;
      SizeAppend(a[1..], b, size);
    }
  }

  /** Total size of the first `n` turns that are in `which`. */
  function SizeOf<T>(turns: seq<seq<T>>, which: set<nat>, n: nat, size: T -> nat): nat
    requires n <= |turns|
  {
    if n == 0 then 0
    else SizeOf(turns, which, n - 1, size) + (if n - 1 in which then Size(turns[n - 1], size) else 0)
  }

  /** The turns not in `evict`, joined. */
  function Kept<T>(turns: seq<seq<T>>, evict: set<nat>, n: nat): seq<T>
    requires n <= |turns|
  {
    if n == 0 then []
    else Kept(turns, evict, n - 1) + (if n - 1 in evict then [] else turns[n - 1])
  }

  lemma {:induction false} KeptSize<T>(turns: seq<seq<T>>, evict: set<nat>, n: nat, size: T -> nat)
    requires n <= |turns|
    ensures Size(Kept(turns, evict, n), size) + SizeOf(turns, evict, n, size) == Size(Flatten(turns[..n]), size)
  {
    if n == 0 {
      assert turns[..n] == [];
    } else {
      KeptSize(turns, evict, n - 1, size);
      assert turns[..n] == turns[..n - 1] + [turns[n - 1]];
      FlattenSnoc(turns[..n - 1], turns[n - 1]);
      SizeAppend(Flatten(turns[..n - 1]), turns[n - 1], size);
      SizeAppend(Kept(turns, evict, n - 1), if n - 1 in evict then [] else turns[n - 1], size);
    }
  }

  lemma {:induction false} SizeOfAdd<T>(turns: seq<seq<T>>, which: set<nat>, i: nat, n: nat, size: T -> nat)
    requires n <= |turns| && i !in which && i < |turns|
    ensures SizeOf(turns, which + {i}, n, size)
         == SizeOf(turns, which, n, size) + if i < n then Size(turns[i], size) else 0
  {
    if n > 0 { SizeOfAdd(turns, which, i, n - 1, size); }
  }

  lemma {:induction false} SizeOfMonotone<T>(turns: seq<seq<T>>, a: set<nat>, b: set<nat>, n: nat, size: T -> nat)
    requires n <= |turns| && a <= b
    ensures SizeOf(turns, a, n, size) <= SizeOf(turns, b, n, size)
  {
    if n > 0 { SizeOfMonotone(turns, a, b, n - 1, size); }
  }

  // ---------- choosing the turns ----------

  /** Turn `i` is evicted before turn `j`: it is larger, or as large and earlier. */
  predicate Before<T>(turns: seq<seq<T>>, i: nat, j: nat, size: T -> nat)
    requires i < |turns| && j < |turns|
  {
    var a, b := Size(turns[i], size), Size(turns[j], size);
    a > b || (a == b && i < j)
  }

  /** Eviction takes the largest of the older turns first. */
  ghost predicate LargestFirst<T>(turns: seq<seq<T>>, evict: set<nat>, older: nat, size: T -> nat)
    requires older <= |turns|
  {
    && (forall i | i in evict :: i < older)
    && (forall i, j | i in evict && 0 <= j < older && j !in evict :: Before(turns, i, j, size))
  }

  /** No smaller choice among the older turns would reach the target. */
  ghost predicate Fewest<T>(turns: seq<seq<T>>, evict: set<nat>, older: nat, target: nat, size: T -> nat)
    requires older <= |turns|
  {
    forall other: set<nat> | (forall i | i in other :: i < older) && |other| < |evict| ::
      Size(Flatten(turns), size) - SizeOf(turns, other, |turns|, size) > target
  }

  /** What one compaction may return. */
  ghost predicate CompactsTo<T(!new)>(messages: seq<T>, target: nat, isUser: T -> bool, size: T -> nat,
                                      result: seq<T>)
  {
    exists turns, evict: set<nat> :: IsSplit(turns, messages, isUser) &&
      CompactsBy(turns, target, size, evict) && result == Kept(turns, evict, |turns|)
  }

  ghost predicate CompactsBy<T>(turns: seq<seq<T>>, target: nat, size: T -> nat, evict: set<nat>) {
    var older := Older(|turns|);
    && LargestFirst(turns, evict, older, size)
    && Fewest(turns, evict, older, target, size)
    && (Size(Kept(turns, evict, |turns|), size) <= target || |evict| == older)
  }

  /** Moving to larger turns never lowers the evicted size: the largest `k` turns outweigh any other `k` or fewer. */
  lemma {:induction false} LargestOutweigh<T>(
    turns: seq<seq<T>>, top: set<nat>, other: set<nat>, older: nat, size: T -> nat)
    requires older <= |turns| && LargestFirst(turns, top, older, size)
    requires (forall i | i in other :: i < older) && |other| <= |top|
    ensures SizeOf(turns, other, |turns|, size) <= SizeOf(turns, top, |turns|, size)
    decreases |other - top|
  {
    if other <= top {
      SizeOfMonotone(turns, other, top, |turns|, size);
    } else {
      var x :| x in other && x !in top;
      MissingMember(top, other);
      var y :| y in top && y !in other;
      var rest := other - {x};
      var swapped := rest + {y};
      assert other == rest + {x};
      assert swapped - top == (other - top) - {x};
      SizeOfAdd(turns, rest, x, |turns|, size);
      SizeOfAdd(turns, rest, y, |turns|, size);
      assert Before(turns, y, x, size);
      LargestOutweigh(turns, top, swapped, older, size);
    }
  }

  /** A set that is not larger and not a subset leaves something of the other out. */
  lemma MissingMember(top: set<nat>, other: set<nat>)
    requires |other| <= |top| && !(other <= top)
    ensures exists y :: y in top && y !in other
  {
    if top <= other {
      SubsetSize(top, other);
    } else {
      var y :| y in top && y !in other;
    }
  }

  lemma {:induction false} SubsetSize(a: set<nat>, b: set<nat>)
    requires a <= b
    ensures |a| <= |b| && (|a| == |b| ==> a == b)
  {
    if a != {} {
      var x :| x in a;
      SubsetSize(a - {x}, b - {x});
    }
  }

  // ---------- sorting the candidates ----------

  /** The candidates in eviction order: an insertion sort by size, largest first, stable. */
  function Inserted<T>(turns: seq<seq<T>>, sorted: seq<nat>, i: nat, size: T -> nat): seq<nat>
    requires i < |turns| && forall k | 0 <= k < |sorted| :: sorted[k] < |turns|
  {
    if sorted == [] then [i]
    else if Size(turns[sorted[0]], size) >= Size(turns[i], size) then
      [sorted[0]] + Inserted(turns, sorted[1..], i, size)
    else [i] + sorted
  }

  /** In eviction order, without repetition, and among the turns before `n`. */
  ghost predicate Descending<T>(turns: seq<seq<T>>, sorted: seq<nat>, n: nat, size: T -> nat) {
    && n <= |turns|
    && (forall k | 0 <= k < |sorted| :: sorted[k] < n)
    && (forall j, k | 0 <= j < k < |sorted| :: Before(turns, sorted[j], sorted[k], size))
  }

  /** All the turns before `n`, in eviction order. */
  ghost predicate Ordered<T>(turns: seq<seq<T>>, sorted: seq<nat>, n: nat, size: T -> nat) {
    Descending(turns, sorted, n, size) && forall i | 0 <= i < n :: i in sorted
  }

  lemma {:induction false} InsertedMembers<T>(turns: seq<seq<T>>, sorted: seq<nat>, i: nat, size: T -> nat)
    requires i < |turns| && forall k | 0 <= k < |sorted| :: sorted[k] < |turns|
    ensures forall x :: x in Inserted(turns, sorted, i, size) <==> x in sorted || x == i
  {
    if sorted != [] && Size(turns[sorted[0]], size) >= Size(turns[i], size) {
      InsertedMembers(turns, sorted[1..], i, size);
      assert sorted == [sorted[0]] + sorted[1..];
    }
  }

  lemma {:induction false} InsertedDescending<T>(turns: seq<seq<T>>, sorted: seq<nat>, i: nat, size: T -> nat)
    requires i < |turns| && Descending(turns, sorted, i, size)
    ensures Descending(turns, Inserted(turns, sorted, i, size), i + 1, size)
  {
    var r := Inserted(turns, sorted, i, size);
    InsertedMembers(turns, sorted, i, size);
    forall k | 0 <= k < |r|
      ensures r[k] < i + 1
    {
      assert r[k] in r;
    }
    if sorted != [] && Size(turns[sorted[0]], size) >= Size(turns[i], size) {
      var more := sorted[1..];
      InsertedDescending(turns, more, i, size);
      InsertedMembers(turns, more, i, size);
      assert r == [sorted[0]] + Inserted(turns, more, i, size);
      forall k | 0 < k < |r|
        ensures Before(turns, r[0], r[k], size)
      {
        assert r[k] in Inserted(turns, more, i, size);
        assert r[k] in more ==> exists m :: 0 < m < |sorted| && sorted[m] == r[k];
      }
    } else {
      assert r == [i] + sorted;
    }
  }

  method SortCandidates<T>(turns: seq<seq<T>>, n: nat, size: T -> nat) returns (sorted: seq<nat>)
    requires n <= |turns|
    ensures Ordered(turns, sorted, n, size)
  {
    sorted := [];
    for i := 0 to n
      invariant Ordered(turns, sorted, i, size)
    {
      InsertedMembers(turns, sorted, i, size);
      InsertedDescending(turns, sorted, i, size);
      sorted := Inserted(turns, sorted, i, size);
    }
  }

  // ---------- the compaction ----------

  lemma PrefixIsLargestFirst<T>(turns: seq<seq<T>>, sorted: seq<nat>, older: nat, k: nat, size: T -> nat)
    requires Ordered(turns, sorted, older, size) && k <= |sorted|
    ensures LargestFirst(turns, Members(sorted[..k]), older, size)
    ensures k < |sorted| ==> sorted[k] !in Members(sorted[..k])
    ensures k < |sorted| ==> Members(sorted[..k + 1]) == Members(sorted[..k]) + {sorted[k]}
  {
    forall i, j | i in Members(sorted[..k]) && 0 <= j < older && j !in Members(sorted[..k])
      ensures Before(turns, i, j, size)
    {
      assert i in sorted[..k] && j in sorted;
      var a :| 0 <= a < k && sorted[a] == i;
      var b :| 0 <= b < |sorted| && sorted[b] == j;
      assert forall m | 0 <= m < k :: sorted[m] in sorted[..k];
    }
    if k < |sorted| {
      assert sorted[..k + 1] == sorted[..k] + [sorted[k]];
      forall a | 0 <= a < k
        ensures sorted[..k][a] != sorted[k]
      {
        assert Before(turns, sorted[a], sorted[k], size);
      }
    }
  }

  lemma {:induction false} AllMembers(s: set<nat>, n: nat)
    requires forall i: nat :: i in s <==> i < n
    ensures |s| == n
  {
    if n > 0 {
      AllMembers(s - {n - 1}, n - 1);
    }
  }

  /** The state of the eviction loop after `k` candidates. */
  ghost predicate EvictedSoFar<T>(
    turns: seq<seq<T>>, candidates: seq<nat>, k: nat, remaining: nat, older: nat, target: nat, size: T -> nat)
    requires k <= |candidates| && older <= |turns|
  {
    var evicted := Members(candidates[..k]);
    && remaining + SizeOf(turns, evicted, |turns|, size) == Size(Flatten(turns), size)
    && Fewest(turns, evicted, older, target, size)
  }

  lemma EvictionStarts<T>(turns: seq<seq<T>>, candidates: seq<nat>, older: nat, target: nat, size: T -> nat)
    requires older <= |turns|
    ensures EvictedSoFar(turns, candidates, 0, Size(Flatten(turns), size), older, target, size)
  {
    NothingEvicted(turns, |turns|, size);
    assert Members(candidates[..0]) == {};
  }

  lemma EvictionStep<T>(
    turns: seq<seq<T>>, candidates: seq<nat>, k: nat, remaining: nat, older: nat, target: nat, size: T -> nat)
    requires k < |candidates| && Ordered(turns, candidates, older, size) && remaining > target
    requires EvictedSoFar(turns, candidates, k, remaining, older, target, size)
    ensures Size(turns[candidates[k]], size) <= remaining
    ensures EvictedSoFar(turns, candidates, k + 1, remaining - Size(turns[candidates[k]], size), older, target, size)
  {
    var evicted, i := Members(candidates[..k]), candidates[k];
    assert turns[..|turns|] == turns;
    PrefixIsLargestFirst(turns, candidates, older, k, size);
    SizeOfAdd(turns, evicted, i, |turns|, size);
    KeptSize(turns, evicted + {i}, |turns|, size);
    FewestStep(turns, evicted, i, older, target, size);
  }

  lemma EvictionEnds<T>(
    turns: seq<seq<T>>, candidates: seq<nat>, k: nat, remaining: nat, older: nat, target: nat, size: T -> nat)
    requires k <= |candidates| && Ordered(turns, candidates, older, size)
    requires |turns| > PRESERVE_TURNS && older == |turns| - PRESERVE_TURNS
    requires EvictedSoFar(turns, candidates, k, remaining, older, target, size)
    requires k == |candidates| || remaining <= target
    ensures CompactsBy(turns, target, size, Members(candidates[..k]))
  {
    assert turns[..|turns|] == turns;
    PrefixIsLargestFirst(turns, candidates, older, k, size);
    KeptSize(turns, Members(candidates[..k]), |turns|, size);
    if k == |candidates| {
      assert candidates[..k] == candidates;
      AllMembers(Members(candidates), older);
    }
  }

  /** Chooses older turns, largest first, until the target is met or no older turn is left. */
  method ChooseEvicted<T>(turns: seq<seq<T>>, target: nat, size: T -> nat) returns (evicted: set<nat>)
    requires |turns| > PRESERVE_TURNS && Size(Flatten(turns), size) > target
    ensures CompactsBy(turns, target, size, evicted)
  {
    var older := |turns| - PRESERVE_TURNS;
    var candidates := SortCandidates(turns, older, size);
    var remaining: nat := Size(Flatten(turns), size);
    evicted := {};
    var k := 0;
    EvictionStarts(turns, candidates, older, target, size);
    while k < |candidates| && remaining > target
      invariant k <= |candidates| && evicted == Members(candidates[..k])
      invariant EvictedSoFar(turns, candidates, k, remaining, older, target, size)
    {
      EvictionStep(turns, candidates, k, remaining, older, target, size);
      PrefixIsLargestFirst(turns, candidates, older, k, size);
      evicted := evicted + {candidates[k]};
      remaining := remaining - Size(turns[candidates[k]], size);
      k := k + 1;
    }
    EvictionEnds(turns, candidates, k, remaining, older, target, size);
  }

  /** Evicts whole turns; the others stay in order. */
  method EvictTurns<T>(turns: seq<seq<T>>, target: nat, size: T -> nat) returns (compacted: seq<T>)
    requires |turns| > PRESERVE_TURNS && Size(Flatten(turns), size) > target
    ensures exists evict :: CompactsBy(turns, target, size, evict) && compacted == Kept(turns, evict, |turns|)
  {
    var evicted := ChooseEvicted(turns, target, size);
    compacted := [];
    for t := 0 to |turns|
      invariant compacted == Kept(turns, evicted, t)
    {
      if t !in evicted {
        compacted := compacted + turns[t];
      }
    }
  }

  lemma {:induction false} NothingEvicted<T>(turns: seq<seq<T>>, n: nat, size: T -> nat)
    requires n <= |turns|
    ensures SizeOf(turns, {}, n, size) == 0 && Kept(turns, {}, n) == Flatten(turns[..n])
  {
    if n == 0 {
      assert turns[..n] == [];
    } else {
      NothingEvicted(turns, n - 1, size);
      assert turns[..n] == turns[..n - 1] + [turns[n - 1]];
      FlattenSnoc(turns[..n - 1], turns[n - 1]);
    }
  }

  /** While the target is not met, one more turn must go, whichever turns are chosen. */
  lemma FewestStep<T>(turns: seq<seq<T>>, top: set<nat>, i: nat, older: nat, target: nat, size: T -> nat)
    requires older <= |turns| && LargestFirst(turns, top, older, size) && i !in top
    requires Size(Flatten(turns), size) - SizeOf(turns, top, |turns|, size) > target
    ensures Fewest(turns, top + {i}, older, target, size)
  {
    forall other: set<nat> | (forall j | j in other :: j < older) && |other| < |top + {i}|
      ensures Size(Flatten(turns), size) - SizeOf(turns, other, |turns|, size) > target
    {
      LargestOutweigh(turns, top, other, older, size);
    }
  }

  /** `compact_messages`. */
  method CompactMessages<T(!new)>(messages: seq<T>, target: nat, isUser: T -> bool, size: T -> nat)
    returns (compacted: seq<T>)
    ensures CompactsTo(messages, target, isUser, size, compacted)
  {
    var turns := SplitTurns(messages, isUser);
    assert turns[..|turns|] == turns;
    NothingEvicted(turns, |turns|, size);
    ghost var none: set<nat> := {};
    if |messages| <= 1 || |turns| <= PRESERVE_TURNS {
      TurnsAreNonempty(turns, messages, isUser);
      assert CompactsBy(turns, target, size, none);
      return messages;
    }
    if Size(messages, size) <= target {
      assert CompactsBy(turns, target, size, none);
      return messages;
    }
    compacted := EvictTurns(turns, target, size);
  }

  lemma {:induction false} TurnsAreNonempty<T>(turns: seq<seq<T>>, messages: seq<T>, isUser: T -> bool)
    requires IsSplit(turns, messages, isUser)
    ensures |turns| <= |messages|
    decreases |turns|
  {
    FlattenHead(turns, messages, isUser);
    if turns != [] {
      SplitTail(turns, messages, isUser);
      TurnsAreNonempty(turns[1..], messages[|turns[0]|..], isUser);
    }
  }

  // ---------- what a compaction guarantees ----------

  function Older(n: nat): nat {
    if n <= PRESERVE_TURNS then 0 else n - PRESERVE_TURNS
  }

  /** The turns that stay, in order. */
  function KeptTurns<T>(turns: seq<seq<T>>, evict: set<nat>, n: nat): seq<seq<T>>
    requires n <= |turns|
  {
    if n == 0 then []
    else KeptTurns(turns, evict, n - 1) + (if n - 1 in evict then [] else [turns[n - 1]])
  }

  lemma {:induction false} KeptTurnsAreTurns<T>(turns: seq<seq<T>>, evict: set<nat>, n: nat, messages: seq<T>,
                                                isUser: T -> bool)
    requires n <= |turns| && IsSplit(turns, messages, isUser)
    ensures IsSplit(KeptTurns(turns, evict, n), Kept(turns, evict, n), isUser)
  {
    if n > 0 {
      KeptTurnsAreTurns(turns, evict, n - 1, messages, isUser);
      var before := KeptTurns(turns, evict, n - 1);
      if n - 1 !in evict {
        FlattenSnoc(before, turns[n - 1]);
        assert n - 1 == 0 ==> before == [];
      } else {
        assert before + [] == before && Kept(turns, evict, n - 1) + [] == Kept(turns, evict, n - 1);
      }
    }
  }

  lemma {:induction false} AllOlder(n: nat) returns (s: set<nat>)
    ensures forall i: nat :: i in s <==> i < n
    ensures |s| == n
  {
    if n == 0 {
      s := {};
    } else {
      s := AllOlder(n - 1);
      s := s + {n - 1};
    }
  }

  lemma {:induction false} KeptAfterOlder<T>(turns: seq<seq<T>>, evict: set<nat>, older: nat, n: nat)
    requires older <= n <= |turns| && forall i: nat | i < n :: i in evict <==> i < older
    ensures KeptTurns(turns, evict, n) == turns[older..n]
  {
    if n > older {
      KeptAfterOlder(turns, evict, older, n - 1);
      assert turns[older..n] == turns[older..n - 1] + [turns[n - 1]];
    } else {
      KeptNothing(turns, evict, n);
    }
  }

  lemma {:induction false} KeptNothing<T>(turns: seq<seq<T>>, evict: set<nat>, n: nat)
    requires n <= |turns| && forall i: nat | i < n :: i in evict
    ensures KeptTurns(turns, evict, n) == []
  {
    if n > 0 { KeptNothing(turns, evict, n - 1); }
  }

  /** A compaction that has reached its target, or has no older turn to work with, changes nothing. */
  lemma NothingLeftToEvict<T>(turns: seq<seq<T>>, target: nat, size: T -> nat, evict: set<nat>)
    requires CompactsBy(turns, target, size, evict)
    requires Size(Flatten(turns), size) <= target || |turns| <= PRESERVE_TURNS
    ensures Kept(turns, evict, |turns|) == Flatten(turns)
  {
    assert turns[..|turns|] == turns;
    NothingEvicted(turns, |turns|, size);
    var none: set<nat> := {};
    assert |none| == 0 && SizeOf(turns, none, |turns|, size) == 0;
    assert evict == {};
  }

  /** Within the target, or no more than the turns that are always kept. */
  ghost predicate Small<T(!new)>(messages: seq<T>, target: nat, isUser: T -> bool, size: T -> nat) {
    Size(messages, size) <= target || exists turns :: IsSplit(turns, messages, isUser) && |turns| <= PRESERVE_TURNS
  }

  /** A compaction reaches its target, unless only the last ten turns are left. */
  lemma CompactedIsSmall<T(!new)>(messages: seq<T>, target: nat, isUser: T -> bool, size: T -> nat, once: seq<T>)
    requires CompactsTo(messages, target, isUser, size, once)
    ensures Small(once, target, isUser, size)
  {
    var turns, evict: set<nat> :| IsSplit(turns, messages, isUser) &&
      CompactsBy(turns, target, size, evict) && once == Kept(turns, evict, |turns|);
    KeptTurnsAreTurns(turns, evict, |turns|, messages, isUser);
    if Size(once, size) > target {
      var all := AllOlder(Older(|turns|));
      SubsetSize(evict, all);
      KeptAfterOlder(turns, evict, Older(|turns|), |turns|);
    }
  }

  /** What is small enough stays as it is. */
  lemma SmallStays<T(!new)>(messages: seq<T>, target: nat, isUser: T -> bool, size: T -> nat, compacted: seq<T>)
    requires CompactsTo(messages, target, isUser, size, compacted) && Small(messages, target, isUser, size)
    ensures compacted == messages
  {
    var turns, evict: set<nat> :| IsSplit(turns, messages, isUser) &&
      CompactsBy(turns, target, size, evict) && compacted == Kept(turns, evict, |turns|);
    if Size(messages, size) > target {
      var few :| IsSplit(few, messages, isUser) && |few| <= PRESERVE_TURNS;
      SplitIsUnique(turns, few, messages, isUser);
    }
    NothingLeftToEvict(turns, target, size, evict);
  }

  /** Running the compaction a second time changes nothing. */
  lemma SecondRunChangesNothing<T(!new)>(
    messages: seq<T>, target: nat, isUser: T -> bool, size: T -> nat, once: seq<T>, twice: seq<T>)
    requires CompactsTo(messages, target, isUser, size, once) && CompactsTo(once, target, isUser, size, twice)
    ensures twice == once
  {
    CompactedIsSmall(messages, target, isUser, size, once);
    SmallStays(once, target, isUser, size, twice);
  }

  lemma {:induction false} KeptEndsWith<T>(turns: seq<seq<T>>, evict: set<nat>, older: nat, n: nat)
    requires older <= n <= |turns| && forall i | i in evict :: i < older
    ensures Kept(turns, evict, n) == Kept(turns, evict, older) + Flatten(turns[older..n])
  {
    if n == older {
      assert turns[older..n] == [];
    } else {
      KeptEndsWith(turns, evict, older, n - 1);
      assert turns[older..n] == turns[older..n - 1] + [turns[n - 1]];
      FlattenSnoc(turns[older..n - 1], turns[n - 1]);
      Associative(Kept(turns, evict, older), Flatten(turns[older..n - 1]), turns[n - 1]);
    }
  }

  predicate IsSuffix<T(==)>(s: seq<T>, whole: seq<T>) {
    |s| <= |whole| && whole[|whole| - |s|..] == s
  }

  function Users<T>(messages: seq<T>, isUser: T -> bool): nat {
    if messages == [] then 0 else (if isUser(messages[0]) then 1 else 0) + Users(messages[1..], isUser)
  }

  lemma {:induction false} UsersAppend<T>(a: seq<T>, b: seq<T>, isUser: T -> bool)
    ensures Users(a + b, isUser) == Users(a, isUser) + Users(b, isUser)
  {
    if a == [] {
      assert a + b == b;
    } else {
      assert (a + b)[1..] == a[1..] + b;
      UsersAppend(a[1..], b, isUser);
    }
  }

  lemma {:induction false} UsersOfTurns<T>(turns: seq<seq<T>>, isUser: T -> bool)
    requires forall t | 0 <= t < |turns| :: turns[t] != [] && isUser(turns[t][0])
    ensures Users(Flatten(turns), isUser) >= |turns|
  {
    if turns != [] {
      UsersAppend(turns[0], Flatten(turns[1..]), isUser);
      UsersOfTurns(turns[1..], isUser);
    }
  }

  /** The end of the conversation is never touched: any final stretch with fewer than ten user messages stays. */
  lemma RecentMessagesStay<T(!new)>(
    messages: seq<T>, target: nat, isUser: T -> bool, size: T -> nat, result: seq<T>, recent: seq<T>)
    requires CompactsTo(messages, target, isUser, size, result)
    requires IsSuffix(recent, messages) && Users(recent, isUser) < PRESERVE_TURNS
    ensures IsSuffix(recent, result)
  {
    var turns, evict: set<nat> :| IsSplit(turns, messages, isUser) &&
      CompactsBy(turns, target, size, evict) && result == Kept(turns, evict, |turns|);
    RecentTurnsStay(turns, target, size, evict);
    var kept := Flatten(turns[Older(|turns|)..]);
    if Older(|turns|) == 0 {
      NothingLeftToEvict(turns, target, size, evict);
    } else {
      UsersOfTurns(turns[Older(|turns|)..], isUser);
      ShortSuffix(recent, kept, messages, isUser);
      SuffixTransitive(recent, kept, result);
    }
  }

  /** The last ten turns end both the conversation and its compaction. */
  lemma RecentTurnsStay<T>(turns: seq<seq<T>>, target: nat, size: T -> nat, evict: set<nat>)
    requires CompactsBy(turns, target, size, evict)
    ensures IsSuffix(Flatten(turns[Older(|turns|)..]), Flatten(turns))
    ensures IsSuffix(Flatten(turns[Older(|turns|)..]), Kept(turns, evict, |turns|))
  {
    var older, n := Older(|turns|), |turns|;
    assert turns == turns[..older] + turns[older..];
    FlattenAppend(turns[..older], turns[older..]);
    KeptEndsWith(turns, evict, older, n);
    assert turns[older..n] == turns[older..];
  }

  lemma SuffixTransitive<T>(a: seq<T>, b: seq<T>, c: seq<T>)
    requires IsSuffix(a, b) && IsSuffix(b, c)
    ensures IsSuffix(a, c)
  {
  }

  /** Of two final stretches, the one with fewer user messages is the shorter. */
  lemma ShortSuffix<T>(a: seq<T>, b: seq<T>, whole: seq<T>, isUser: T -> bool)
    requires IsSuffix(a, whole) && IsSuffix(b, whole) && Users(a, isUser) < Users(b, isUser)
    ensures IsSuffix(a, b)
  {
  }
}
