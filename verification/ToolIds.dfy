/** Tool call identities of a turn: trimmed, non-empty, and renamed when an earlier round used them already. */
module ToolIds {
  import opened Prelude
  import opened Text
  import opened Numerals
  import opened ModelProjection

  /** The renamings tried for an identity: without a counter first, then counted from one. */
  function Candidate(round: nat, attempt: nat, id: string): string {
    "round-" + (Decimal(round) + (['-'] + (if attempt == 0 then id else Decimal(attempt) + (['-'] + id))))
  }

  function Renamings(round: nat, id: string): nat -> string {
    (attempt: nat) => Candidate(round, attempt, id)
  }

  /** Different counters give different names. */
  lemma CountedNamesDiffer(round: nat, a: nat, b: nat, id: string)
    requires 0 < a < b
    ensures Candidate(round, a, id) != Candidate(round, b, id)
  {
    var tail := ['-'] + id;
    DecimalShows(a);
    DecimalShows(b);
    DecimalShows(round);
    DigitsSpan(Decimal(a), tail);
    DigitsSpan(Decimal(b), tail);
    var p, q := ['-'] + (Decimal(a) + tail), ['-'] + (Decimal(b) + tail);
    assert p[1..] == Decimal(a) + tail && q[1..] == Decimal(b) + tail;
    DigitsSpan(Decimal(round), p);
    DigitsSpan(Decimal(round), q);
    var u, v := Decimal(round) + p, Decimal(round) + q;
    assert ("round-" + u)[6..] == u && ("round-" + v)[6..] == v;
  }

  /** `n` is the first name nobody uses. */
  ghost predicate FirstUnused(name: nat -> string, n: nat, seen: set<string>) {
    name(n) !in seen && forall k: nat | k < n :: name(k) in seen
  }

  /** The search for an unused name ends: every rejected name is a different member of the finite set. */
  method FindUnused(name: nat -> string, seen: set<string>) returns (n: nat)
    requires forall a: nat, b: nat | 0 < a < b :: name(a) != name(b)
    ensures FirstUnused(name, n, seen)
  {
    n := 0;
    ghost var tried: set<string> := {};
    while name(n) in seen
      invariant forall k: nat | k < n :: name(k) in seen
      invariant tried == set k: nat | 1 <= k < n :: name(k)
      invariant tried <= seen
      decreases seen - tried, if n == 0 then 1 else 0
    {
      if n > 0 {
        assert name(n) !in tried;
        tried := tried + {name(n)};
      }
      n := n + 1;
    }
  }

  /** The name of an identity in this turn: itself if it is new, otherwise the first renaming nobody uses. */
  ghost predicate IsSemanticId(upstream: string, round: nat, seen: set<string>, id: string) {
    if upstream !in seen then id == upstream
    else exists n: nat :: FirstUnused(Renamings(round, upstream), n, seen) && id == Candidate(round, n, upstream)
  }

  method SemanticId(upstream: string, round: nat, seen: set<string>) returns (id: string)
    ensures id !in seen && (upstream != "" ==> id != "")
    ensures IsSemanticId(upstream, round, seen, id)
  {
    if upstream !in seen { return upstream; }
    forall a: nat, b: nat | 0 < a < b
      ensures Candidate(round, a, upstream) != Candidate(round, b, upstream)
    {
      CountedNamesDiffer(round, a, b, upstream);
    }
    var n := FindUnused(Renamings(round, upstream), seen);
    id := Candidate(round, n, upstream);
  }

  function Ids(calls: seq<PendingToolCall>): seq<string> {
    seq(|calls|, i requires 0 <= i < |calls| => calls[i].id)
  }

  /** Identities that are not empty, not taken, and pairwise different. */
  ghost predicate FreshIds(ids: seq<string>, taken: set<string>) {
    (forall i | 0 <= i < |ids| :: ids[i] != "" && ids[i] !in taken) && Distinct(ids)
  }

  /** A round the loop refuses: a blank identity or name, or one identity twice. */
  ghost predicate Malformed(calls: seq<PendingToolCall>) {
    || (exists i :: 0 <= i < |calls| && (Trim(calls[i].id) == "" || Trim(calls[i].name) == ""))
    || (exists i, j :: 0 <= i < j < |calls| && Trim(calls[i].id) == Trim(calls[j].id))
  }

  /** A call under its name in the turn; nothing else changes. */
  ghost predicate NamedLike(call: PendingToolCall, named: PendingToolCall, round: nat, taken: set<string>) {
    && named.name == call.name && named.arguments == call.arguments
    && IsSemanticId(Trim(call.id), round, taken, named.id)
  }

  ghost predicate NamedInOrder(calls: seq<PendingToolCall>, named: seq<PendingToolCall>, round: nat, seen: set<string>)
  {
    && |named| <= |calls|
    && forall k | 0 <= k < |named| :: NamedLike(calls[k], named[k], round, seen + Members(Ids(named)[..k]))
  }

  /** The first calls are well formed and named apart from `seen` and from each other. */
  ghost predicate NamedSoFar(calls: seq<PendingToolCall>, named: seq<PendingToolCall>, round: nat, seen: set<string>) {
    && NamedInOrder(calls, named, round, seen)
    && !Malformed(calls[..|named|]) && FreshIds(Ids(named), seen)
  }

  lemma FreshSnoc(ids: seq<string>, taken: set<string>, id: string)
    requires FreshIds(ids, taken) && id != "" && id !in taken + Members(ids)
    ensures FreshIds(ids + [id], taken)
  {
  }

  lemma WellFormedSnoc(calls: seq<PendingToolCall>, n: nat)
    requires n < |calls| && !Malformed(calls[..n])
    requires Trim(calls[n].id) != "" && Trim(calls[n].name) != ""
    requires forall i | 0 <= i < n :: Trim(calls[i].id) != Trim(calls[n].id)
    ensures !Malformed(calls[..n + 1])
  {
    forall i | 0 <= i < n
      ensures calls[..n][i] == calls[i] && calls[..n + 1][i] == calls[i]
    {
    }
  }

  lemma NamedSnoc(calls: seq<PendingToolCall>, named: seq<PendingToolCall>, round: nat, seen: set<string>,
                  next: PendingToolCall)
    requires NamedInOrder(calls, named, round, seen) && |named| < |calls|
    requires NamedLike(calls[|named|], next, round, seen + Members(Ids(named)))
    ensures NamedInOrder(calls, named + [next], round, seen)
  {
    var longer := named + [next];
    assert Ids(longer) == Ids(named) + [next.id];
    forall k | 0 <= k < |longer|
      ensures NamedLike(calls[k], longer[k], round, seen + Members(Ids(longer)[..k]))
    {
      assert Ids(longer)[..k] == Ids(named)[..k];
      if k == |named| { assert Ids(named)[..k] == Ids(named); }
    }
  }

  lemma NewName(named: seq<PendingToolCall>, next: PendingToolCall, seen: set<string>)
    requires FreshIds(Ids(named), seen) && next.id != "" && next.id !in seen + Members(Ids(named))
    ensures FreshIds(Ids(named + [next]), seen)
    ensures Members(Ids(named + [next])) == Members(Ids(named)) + {next.id}
  {
    assert Ids(named + [next]) == Ids(named) + [next.id];
    FreshSnoc(Ids(named), seen, next.id);
    MembersAppend(Ids(named), [next.id]);
  }

  lemma NamedStep(calls: seq<PendingToolCall>, named: seq<PendingToolCall>, round: nat, seen: set<string>, id: string)
    requires NamedSoFar(calls, named, round, seen) && |named| < |calls|
    requires var c := calls[|named|];
      && Trim(c.id) != "" && Trim(c.name) != "" && (forall i | 0 <= i < |named| :: Trim(calls[i].id) != Trim(c.id))
      && id != "" && id !in seen + Members(Ids(named))
      && IsSemanticId(Trim(c.id), round, seen + Members(Ids(named)), id)
    ensures var longer := named + [calls[|named|].(id := id)];
      NamedSoFar(calls, longer, round, seen) && Members(Ids(longer)) == Members(Ids(named)) + {id}
  {
    var next := calls[|named|].(id := id);
    NewName(named, next, seen);
    WellFormedSnoc(calls, |named|);
    NamedSnoc(calls, named, round, seen, next);
  }

  function UpstreamIds(calls: seq<PendingToolCall>, n: nat): set<string>
    requires n <= |calls|
  {
    set i | 0 <= i < n :: Trim(calls[i].id)
  }

  lemma MalformedAt(calls: seq<PendingToolCall>, n: nat)
    requires n < |calls|
    requires Trim(calls[n].id) == "" || Trim(calls[n].name) == "" || Trim(calls[n].id) in UpstreamIds(calls, n)
    ensures Malformed(calls)
  {
  }

  lemma NewUpstream(calls: seq<PendingToolCall>, n: nat)
    requires n < |calls| && Trim(calls[n].id) !in UpstreamIds(calls, n)
    ensures forall i | 0 <= i < n :: Trim(calls[i].id) != Trim(calls[n].id)
    ensures UpstreamIds(calls, n + 1) == UpstreamIds(calls, n) + {Trim(calls[n].id)}
  {
  }

  /** `canonicalize_tool_calls`: the calls of one round under identities unique in the turn. */
  method CanonicalizeToolCalls(calls: seq<PendingToolCall>, round: nat, seen: set<string>)
    returns (r: Option<seq<PendingToolCall>>, seen': set<string>)
    ensures r.None? <==> Malformed(calls)
    ensures r.Some? ==>
      |r.value| == |calls| && NamedSoFar(calls, r.value, round, seen) && seen' == seen + Members(Ids(r.value))
  {
    var named: seq<PendingToolCall> := [];
    var roundSeen: set<string> := {};
    seen' := seen;
    assert Members(Ids(named)) == {};
    while |named| < |calls|
      invariant NamedSoFar(calls, named, round, seen) && seen' == seen + Members(Ids(named))
      invariant roundSeen == UpstreamIds(calls, |named|)
      decreases |calls| - |named|
    {
      var call := calls[|named|];
      var upstream := Trim(call.id);
      if upstream == "" || Trim(call.name) == "" || upstream in roundSeen {
        MalformedAt(calls, |named|);
        return None, seen';
      }
      NewUpstream(calls, |named|);
      roundSeen := roundSeen + {upstream};
      var id := SemanticId(upstream, round, seen');
      seen' := seen' + {id};
      NamedStep(calls, named, round, seen, id);
      named := named + [call.(id := id)];
    }
    assert calls[..|calls|] == calls;
    r := Some(named);
  }

  // ---------- over the rounds of a turn ----------

  /** The calls of one round, named against everything that was named before it. */
  ghost predicate NamedAt(rounds: seq<seq<PendingToolCall>>, named: seq<seq<PendingToolCall>>, first: nat,
                          seen: set<string>, k: nat)
    requires k < |named| <= |rounds|
  {
    && |named[k]| == |rounds[k]|
    && NamedSoFar(rounds[k], named[k], first + k, seen + Members(Ids(Flatten(named[..k]))))
  }

  lemma IdsAppend(a: seq<PendingToolCall>, b: seq<PendingToolCall>)
    ensures Ids(a + b) == Ids(a) + Ids(b)
  {
  }

  lemma FreshAppend(a: seq<string>, b: seq<string>, taken: set<string>)
    requires FreshIds(a, taken) && FreshIds(b, taken + Members(a))
    ensures FreshIds(a + b, taken)
  {
    assert forall i | 0 <= i < |a| :: a[i] in Members(a);
  }

  /** Over any number of rounds, the names are not empty, new, and different from each other. */
  lemma {:induction false} RoundsAreDistinct(rounds: seq<seq<PendingToolCall>>, named: seq<seq<PendingToolCall>>,
                                             first: nat, seen: set<string>, n: nat)
    requires n <= |named| <= |rounds| && forall k | 0 <= k < n :: NamedAt(rounds, named, first, seen, k)
    ensures FreshIds(Ids(Flatten(named[..n])), seen)
  {
    if n == 0 {
      assert named[..0] == [];
    } else {
      RoundsAreDistinct(rounds, named, first, seen, n - 1);
      assert NamedAt(rounds, named, first, seen, n - 1);
      RoundFollows(named, n - 1, seen);
    }
  }

  lemma RoundFollows(named: seq<seq<PendingToolCall>>, k: nat, seen: set<string>)
    requires k < |named| && FreshIds(Ids(Flatten(named[..k])), seen)
    requires FreshIds(Ids(named[k]), seen + Members(Ids(Flatten(named[..k]))))
    ensures FreshIds(Ids(Flatten(named[..k + 1])), seen)
    ensures Members(Ids(Flatten(named[..k + 1]))) == Members(Ids(Flatten(named[..k]))) + Members(Ids(named[k]))
  {
    assert named[..k + 1] == named[..k] + [named[k]];
    FlattenSnoc(named[..k], named[k]);
    IdsAppend(Flatten(named[..k]), named[k]);
    FreshAppend(Ids(Flatten(named[..k])), Ids(named[k]), seen);
    MembersAppend(Ids(Flatten(named[..k])), Ids(named[k]));
  }
}
