/** Turns the growing snapshots of the model's answer into deltas, over all attempts of one turn. */
module SnapshotDelta {
  import opened Prelude

  datatype Frame =
    | TextFrame(candidate: string)
    | ToolFrame(id: string, name: string, arguments: string)
    | MetadataFrame(kind: string, value: string)

  datatype Item =
    | TextItem(text: string)
    | ToolItem(id: string, name: string, arguments: string)
    | MetadataItem(kind: string, value: string)
    | ProviderError

  datatype StreamError = CookiesExpired | UpstreamRejected | UnknownModel | StreamDivergence | Other

  predicate Fatal(e: StreamError) {
    e.CookiesExpired? || e.UpstreamRejected? || e.UnknownModel?
  }

  // ---------- what frames mean ----------

  /** What happens to a stream: a frame is emitted, or an error of the provider is reported. */
  datatype Told = Emitted(frame: Frame) | Reported

  predicate IsSnapshot(t: Told) {
    t.Emitted? && t.frame.TextFrame?
  }

  predicate IsTool(t: Told) {
    t.Emitted? && t.frame.ToolFrame?
  }

  /** The accepted text: a snapshot that extends it takes its place. */
  function Accepted(told: seq<Told>): string {
    if told == [] then ""
    else
      var before, t := Accepted(told[..|told| - 1]), told[|told| - 1];
      if IsSnapshot(t) && before <= t.frame.candidate then t.frame.candidate else before
  }

  /** The identities of the tool calls. */
  function Known(told: seq<Told>): set<string> {
    if told == [] then {}
    else
      var t := told[|told| - 1];
      Known(told[..|told| - 1]) + if IsTool(t) then {t.frame.id} else {}
  }

  /** The items that one step sends after others. */
  function ItemsAfter(clean: string -> string, before: seq<Told>, t: Told): seq<Item> {
    match t
    case Reported => [ProviderError]
    case Emitted(MetadataFrame(kind, value)) => [MetadataItem(kind, value)]
    case Emitted(ToolFrame(id, name, arguments)) =>
      if id in Known(before) then [] else [ToolItem(id, name, arguments)]
    case Emitted(TextFrame(candidate)) =>
      var text := Accepted(before);
      if text < candidate && clean(candidate[|text|..]) != "" then [TextItem(clean(candidate[|text|..]))] else []
  }

  function ItemsOf(clean: string -> string, told: seq<Told>): seq<Item> {
    if told == [] then []
    else
      var before := told[..|told| - 1];
      ItemsOf(clean, before) + ItemsAfter(clean, before, told[|told| - 1])
  }

  lemma ToldSnoc(clean: string -> string, told: seq<Told>, t: Told)
    ensures ItemsOf(clean, told + [t]) == ItemsOf(clean, told) + ItemsAfter(clean, told, t)
    ensures Accepted(told + [t])
         == if IsSnapshot(t) && Accepted(told) <= t.frame.candidate then t.frame.candidate else Accepted(told)
    ensures Known(told + [t]) == Known(told) + if IsTool(t) then {t.frame.id} else {}
  {
    assert (told + [t])[..|told|] == told;
  }

  // ---------- what the sent items show ----------

  function TextsOf(sent: seq<Item>): seq<string> {
    if sent == [] then []
    else
      var item := sent[|sent| - 1];
      TextsOf(sent[..|sent| - 1]) + (if item.TextItem? then [item.text] else [])
  }

  function ToolsOf(sent: seq<Item>): seq<string> {
    if sent == [] then []
    else
      var item := sent[|sent| - 1];
      ToolsOf(sent[..|sent| - 1]) + (if item.ToolItem? then [item.id] else [])
  }

  lemma SentSnoc(sent: seq<Item>, item: Item)
    ensures TextsOf(sent + [item]) == if item.TextItem? then TextsOf(sent) + [item.text] else TextsOf(sent)
    ensures ToolsOf(sent + [item]) == if item.ToolItem? then ToolsOf(sent) + [item.id] else ToolsOf(sent)
  {
  }

  /** The pieces by which the accepted text grew. */
  function Deltas(told: seq<Told>): seq<string> {
    if told == [] then []
    else
      var before, t := told[..|told| - 1], told[|told| - 1];
      var text := Accepted(before);
      Deltas(before) + if IsSnapshot(t) && text < t.frame.candidate then [t.frame.candidate[|text|..]] else []
  }

  /** The cleaned deltas that are not empty. */
  function Cleaned(clean: string -> string, raw: seq<string>): seq<string> {
    if raw == [] then []
    else
      var text := clean(raw[|raw| - 1]);
      Cleaned(clean, raw[..|raw| - 1]) + (if text == "" then [] else [text])
  }

  lemma CleanedSnoc(clean: string -> string, raw: seq<string>, delta: string)
    ensures Cleaned(clean, raw + [delta])
         == if clean(delta) == "" then Cleaned(clean, raw) else Cleaned(clean, raw) + [clean(delta)]
  {
    assert (raw + [delta])[..|raw|] == raw;
  }

  lemma DeltasSnoc(told: seq<Told>, t: Told)
    ensures Deltas(told + [t])
         == if IsSnapshot(t) && Accepted(told) < t.frame.candidate
            then Deltas(told) + [t.frame.candidate[|Accepted(told)|..]] else Deltas(told)
  {
    assert (told + [t])[..|told|] == told;
  }

  /** The deltas make up the accepted text, and none of them is empty. */
  lemma {:induction false} DeltasMakeText(told: seq<Told>)
    ensures Flatten(Deltas(told)) == Accepted(told) && "" !in Deltas(told)
  {
    if told != [] {
      var before, t := told[..|told| - 1], told[|told| - 1];
      DeltasMakeText(before);
      DeltasSnoc(before, t);
      assert told == before + [t];
      if IsSnapshot(t) && Accepted(before) < t.frame.candidate {
        FlattenSnoc(Deltas(before), t.frame.candidate[|Accepted(before)|..]);
      }
    }
  }

  /** What is sent as text are the deltas, cleaned. */
  lemma {:induction false} TextsAreDeltas(clean: string -> string, told: seq<Told>)
    ensures TextsOf(ItemsOf(clean, told)) == Cleaned(clean, Deltas(told))
  {
    if told != [] {
      var before, t := told[..|told| - 1], told[|told| - 1];
      TextsAreDeltas(clean, before);
      assert told == before + [t];
      DeltasSnoc(before, t);
      ToldSnoc(clean, before, t);
      TextsGrow(clean, before, t, ItemsOf(clean, before), Deltas(before));
    }
  }

  lemma AfterShape(clean: string -> string, before: seq<Told>, t: Told)
    ensures var items := ItemsAfter(clean, before, t);
      && |items| <= 1
      && (items != [] ==> (items[0].TextItem? <==> IsSnapshot(t)) && (items[0].ToolItem? <==> IsTool(t)))
  {
  }

  lemma OtherItems(sent: seq<Item>, items: seq<Item>)
    requires |items| <= 1
    ensures items == [] || !items[0].TextItem? ==> TextsOf(sent + items) == TextsOf(sent)
    ensures items == [] || !items[0].ToolItem? ==> ToolsOf(sent + items) == ToolsOf(sent)
  {
    if items == [] {
      assert sent + items == sent;
    } else {
      assert items == [items[0]];
      SentSnoc(sent, items[0]);
    }
  }

  lemma TextsGrow(clean: string -> string, before: seq<Told>, t: Told, sent: seq<Item>, raw: seq<string>)
    requires TextsOf(sent) == Cleaned(clean, raw)
    ensures TextsOf(sent + ItemsAfter(clean, before, t))
         == if IsSnapshot(t) && Accepted(before) < t.frame.candidate
            then Cleaned(clean, raw + [t.frame.candidate[|Accepted(before)|..]]) else Cleaned(clean, raw)
  {
    var items := ItemsAfter(clean, before, t);
    AfterShape(clean, before, t);
    OtherItems(sent, items);
    if IsSnapshot(t) && Accepted(before) < t.frame.candidate {
      var delta := t.frame.candidate[|Accepted(before)|..];
      CleanedSnoc(clean, raw, delta);
      SentSnoc(sent, TextItem(clean(delta)));
    }
  }

  /** Where cleaning changes nothing the sent pieces of text make up the accepted text. */
  lemma AllTextArrives(clean: string -> string, told: seq<Told>)
    requires forall delta: string :: clean(delta) == delta
    ensures Flatten(TextsOf(ItemsOf(clean, told))) == Accepted(told)
  {
    TextsAreDeltas(clean, told);
    DeltasMakeText(told);
    CleaningNothing(clean, Deltas(told));
  }

  lemma {:induction false} CleaningNothing(clean: string -> string, raw: seq<string>)
    requires "" !in raw && forall delta: string :: clean(delta) == delta
    ensures Cleaned(clean, raw) == raw
  {
    if raw != [] { CleaningNothing(clean, raw[..|raw| - 1]); }
  }

  /** Every tool identity is sent once. */
  lemma {:induction false} ToolsAreSentOnce(clean: string -> string, told: seq<Told>)
    ensures Distinct(ToolsOf(ItemsOf(clean, told))) && Members(ToolsOf(ItemsOf(clean, told))) == Known(told)
  {
    if told != [] {
      var before, t := told[..|told| - 1], told[|told| - 1];
      ToolsAreSentOnce(clean, before);
      ToldSnoc(clean, before, t);
      assert told == before + [t];
      ToolsStep(clean, before, t, ItemsOf(clean, before), Known(before));
    }
  }

  lemma ToolsStep(clean: string -> string, before: seq<Told>, t: Told, sent: seq<Item>, known: set<string>)
    requires known == Known(before) && Distinct(ToolsOf(sent)) && Members(ToolsOf(sent)) == known
    ensures var after := ToolsOf(sent + ItemsAfter(clean, before, t));
      Distinct(after) && Members(after) == known + if IsTool(t) then {t.frame.id} else {}
  {
    AfterShape(clean, before, t);
    OtherItems(sent, ItemsAfter(clean, before, t));
    if IsTool(t) && t.frame.id !in known {
      ToolsGrow(sent, ToolItem(t.frame.id, t.frame.name, t.frame.arguments));
    }
  }

  lemma ToolsGrow(sent: seq<Item>, item: Item)
    requires item.ToolItem? && Distinct(ToolsOf(sent)) && item.id !in Members(ToolsOf(sent))
    ensures Distinct(ToolsOf(sent + [item]))
    ensures Members(ToolsOf(sent + [item])) == Members(ToolsOf(sent)) + {item.id}
  {
    SentSnoc(sent, item);
    DistinctSnoc(ToolsOf(sent), item.id);
  }

  lemma DistinctSnoc(ids: seq<string>, id: string)
    requires Distinct(ids) && id !in Members(ids)
    ensures Distinct(ids + [id]) && Members(ids + [id]) == Members(ids) + {id}
  {
    MembersAppend(ids, [id]);
    assert forall i | 0 <= i < |ids| :: ids[i] in Members(ids);
  }

  /** A tool call is sent with the name and arguments under which its identity was first seen. */
  lemma {:induction false} FirstToolIsSent(clean: string -> string, told: seq<Told>, k: nat)
    requires k < |told| && IsTool(told[k]) && told[k].frame.id !in Known(told[..k])
    ensures var f := told[k].frame;
      ToolItem(f.id, f.name, f.arguments) in ItemsOf(clean, told)
  {
    var n := |told| - 1;
    if k == n {
      assert ItemsAfter(clean, told[..n], told[n])[0] in ItemsOf(clean, told);
    } else {
      assert told[..n][..k] == told[..k];
      FirstToolIsSent(clean, told[..n], k);
    }
  }

  function NotesSent(sent: seq<Item>): seq<Item> {
    if sent == [] then []
    else
      var item := sent[|sent| - 1];
      NotesSent(sent[..|sent| - 1]) + (if item.MetadataItem? || item.ProviderError? then [item] else [])
  }

  function Notes(told: seq<Told>): seq<Item> {
    if told == [] then []
    else
      var t := told[|told| - 1];
      Notes(told[..|told| - 1])
      + if t.Reported? then [ProviderError]
        else if t.frame.MetadataFrame? then [MetadataItem(t.frame.kind, t.frame.value)] else []
  }

  /** Metadata and errors of the provider are all sent, in order. */
  lemma {:induction false} NotesAreSent(clean: string -> string, told: seq<Told>)
    ensures NotesSent(ItemsOf(clean, told)) == Notes(told)
  {
    if told != [] {
      var before, t := told[..|told| - 1], told[|told| - 1];
      NotesAreSent(clean, before);
      var sent, items := ItemsOf(clean, before), ItemsAfter(clean, before, t);
      assert items == [] ==> sent + items == sent;
      assert items != [] ==> (sent + items)[..|sent + items| - 1] == sent;
    }
  }

  // ---------- the stream of deltas ----------

  /** The last snapshot, if there is one. */
  function LastTold(told: seq<Told>): Option<string> {
    if told == [] then None
    else
      var t := told[|told| - 1];
      if IsSnapshot(t) then Some(t.frame.candidate) else LastTold(told[..|told| - 1])
  }

  /** The last snapshot does not extend the accepted text. */
  predicate Diverges(text: string, told: seq<Told>) {
    LastTold(told).Some? && !(text <= LastTold(told).value)
  }

  /** What is known of the last snapshot: it diverges, or it is the accepted text. */
  predicate Judged(text: string, diverged: bool, last: Option<string>) {
    match last
    case None => !diverged
    case Some(candidate) => if diverged then !(text <= candidate) else candidate == text
  }

  /** What was sent of some items: all of them while the receiver listens, else a beginning. */
  predicate Kept(sent: seq<Item>, items: seq<Item>, open: bool) {
    sent <= items && (open ==> sent == items)
  }

  /** What is accepted, known and sent is what the steps so far mean. */
  ghost predicate Meant(clean: string -> string, told: seq<Told>, text: string, tools: set<string>, sent: seq<Item>,
                        open: bool) {
    text == Accepted(told) && tools == Known(told) && Kept(sent, ItemsOf(clean, told), open)
  }

  /** A step that sends nothing. */
  lemma MeantSilent(clean: string -> string, told: seq<Told>, text: string, tools: set<string>, sent: seq<Item>,
                    open: bool, t: Told)
    requires Meant(clean, told, text, tools, sent, open) && ItemsAfter(clean, told, t) == []
    ensures Meant(clean, told + [t], Accepted(told + [t]), Known(told + [t]), sent, open)
  {
    ToldSnoc(clean, told, t);
    assert ItemsOf(clean, told) + [] == ItemsOf(clean, told);
  }

  /** A step that sends an item, or finds that the receiver has left. */
  lemma MeantSent(clean: string -> string, told: seq<Told>, text: string, tools: set<string>, sent: seq<Item>,
                  open: bool, t: Told, item: Item)
    requires Meant(clean, told, text, tools, sent, open) && ItemsAfter(clean, told, t) == [item]
    ensures Meant(clean, told + [t], Accepted(told + [t]), Known(told + [t]), sent, false)
    ensures open ==> Meant(clean, told + [t], Accepted(told + [t]), Known(told + [t]), sent + [item], true)
  {
    ToldSnoc(clean, told, t);
  }

  /** What is known of the snapshots since the attempt began. */
  ghost predicate Current(told: seq<Told>, start: nat, text: string, diverged: bool) {
    start <= |told| && Judged(text, diverged, LastTold(told[start..]))
  }

  lemma CurrentStep(told: seq<Told>, start: nat, text: string, diverged: bool, t: Told)
    requires Current(told, start, text, diverged)
    ensures if IsSnapshot(t) then
              && (text <= t.frame.candidate ==> Current(told + [t], start, t.frame.candidate, false))
              && (!(text <= t.frame.candidate) ==> Current(told + [t], start, text, true))
            else Current(told + [t], start, text, diverged)
  {
    assert (told + [t])[start..] == told[start..] + [t];
    assert (told[start..] + [t])[..|told[start..]|] == told[start..];
  }

  lemma SnapshotStep(told: seq<Told>, candidate: string)
    ensures var t := Emitted(TextFrame(candidate));
      && Accepted(told + [t]) == (if Accepted(told) <= candidate then candidate else Accepted(told))
      && Known(told + [t]) == Known(told)
  {
    assert (told + [Emitted(TextFrame(candidate))])[..|told|] == told;
  }

  lemma OtherStep(told: seq<Told>, t: Told)
    requires !IsSnapshot(t)
    ensures Accepted(told + [t]) == Accepted(told)
    ensures Known(told + [t]) == if IsTool(t) then Known(told) + {t.frame.id} else Known(told)
  {
    assert (told + [t])[..|told|] == told;
  }

  class DeltaStream {
    /** `clean_text`, which takes code references and cards out of a delta. */
    const clean: string -> string
    var emitted: string
    var emittedTools: set<string>
    var diverged: bool
    var open: bool
    var sent: seq<Item>
    /** Everything that happened, and where the current attempt begins in it. */
    ghost var told: seq<Told>
    ghost var start: nat

    ghost predicate Valid()
      reads this
    {
      Meant(clean, told, emitted, emittedTools, sent, open) && Current(told, start, emitted, diverged)
    }

    constructor (clean: string -> string)
      ensures Valid() && open && told == [] && start == 0 && this.clean == clean
    {
      this.clean, emitted, emittedTools, diverged, open, sent, told, start := clean, "", {}, false, true, [], [], 0;
    }

    /** Sends one item; the receiver may have gone away. */
    method Send(item: Item) returns (ok: bool)
      modifies this`open, this`sent
      ensures ok ==> old(open) && open && sent == old(sent) + [item]
      ensures !ok ==> !open && sent == old(sent)
    {
      var closes: bool := *;
      if closes { open := false; }
      ok := open;
      if ok { sent := sent + [item]; }
    }

    /** One more step happened; what was sent stays sent. */
    twostate predicate Stepped(t: Told)
      reads this
    {
      && Valid() && told == old(told) + [t] && start == old(start)
      && old(sent) <= sent && (open ==> old(open))
    }

    /** Sends the cleaned delta of a snapshot that extends the accepted text, if anything is left of it. */
    method Accept(candidate: string) returns (ok: bool)
      requires Valid() && emitted < candidate
      modifies this
      ensures Stepped(Emitted(TextFrame(candidate))) && (open ==> ok)
    {
      ghost var step := Emitted(TextFrame(candidate));
      var text := clean(candidate[|emitted|..]);
      SnapshotStep(told, candidate);
      CurrentStep(told, start, emitted, diverged, step);
      if text == "" {
        MeantSilent(clean, told, emitted, emittedTools, sent, open, step);
      } else {
        MeantSent(clean, told, emitted, emittedTools, sent, open, step, TextItem(text));
      }
      emitted, diverged, told := candidate, false, told + [step];
      ok := true;
      if text != "" { ok := Send(TextItem(text)); }
    }

    /** A snapshot that adds nothing to the accepted text: it repeats it, or it diverges. */
    method Ignore(candidate: string)
      requires Valid() && (candidate == emitted || !(emitted <= candidate))
      modifies this`diverged, this`told
      ensures Stepped(Emitted(TextFrame(candidate))) && diverged == (candidate != emitted)
    {
      ghost var step := Emitted(TextFrame(candidate));
      SnapshotStep(told, candidate);
      CurrentStep(told, start, emitted, diverged, step);
      MeantSilent(clean, told, emitted, emittedTools, sent, open, step);
      diverged, told := candidate != emitted, told + [step];
    }

    /** `emit_frame` for a snapshot. */
    method EmitText(candidate: string) returns (ok: bool)
      requires Valid()
      modifies this
      ensures Stepped(Emitted(TextFrame(candidate))) && (open ==> ok)
    {
      ok := true;
      if candidate == emitted || !(emitted <= candidate) {
        Ignore(candidate);
      } else {
        ok := Accept(candidate);
      }
    }

    /** A step that sends one item which is not text. */
    method SendOther(ghost t: Told, item: Item) returns (ok: bool)
      requires Valid() && !IsSnapshot(t) && ItemsAfter(clean, told, t) == [item]
      modifies this
      ensures Stepped(t) && (open ==> ok)
    {
      OtherStep(told, t);
      CurrentStep(told, start, emitted, diverged, t);
      MeantSent(clean, told, emitted, emittedTools, sent, open, t, item);
      if item.ToolItem? { emittedTools := emittedTools + {item.id}; }
      told := told + [t];
      ok := Send(item);
    }

    /** Sends a tool call, unless its identity was sent before. */
    method EmitTool(id: string, name: string, arguments: string) returns (ok: bool)
      requires Valid()
      modifies this
      ensures Stepped(Emitted(ToolFrame(id, name, arguments))) && (open ==> ok)
    {
      ghost var step := Emitted(ToolFrame(id, name, arguments));
      if id !in emittedTools {
        ok := SendOther(step, ToolItem(id, name, arguments));
      } else {
        OtherStep(told, step);
        CurrentStep(told, start, emitted, diverged, step);
        MeantSilent(clean, told, emitted, emittedTools, sent, open, step);
        told := told + [step];
        ok := true;
      }
    }

    /** `emit_frame`. */
    method Emit(frame: Frame) returns (ok: bool)
      requires Valid()
      modifies this
      ensures Stepped(Emitted(frame)) && (open ==> ok)
    {
      match frame {
        case TextFrame(candidate) => ok := EmitText(candidate);
        case ToolFrame(id, name, arguments) => ok := EmitTool(id, name, arguments);
        case MetadataFrame(kind, value) => ok := SendOther(Emitted(frame), MetadataItem(kind, value));
      }
    }

    /** Reports an error of the provider; nobody may be listening. */
    method ReportError()
      requires Valid()
      modifies this
      ensures Stepped(Reported)
    {
      var _ := SendOther(Reported, ProviderError);
    }

    /** Time passes: the receiver may go away unnoticed. */
    method Wait()
      requires Valid()
      modifies this`open
      ensures Valid() && (open ==> old(open))
    {
      var leaves: bool := *;
      if leaves { open := false; }
    }

    /** Whether another attempt may follow one that ended like this. */
    method AllowsRetry(end: AttemptEnd) returns (again: bool)
      requires Valid() && end.Failed? && !Fatal(end.error)
      ensures again == MayRetry(told, end)
    {
      again := emittedTools == {} && (emitted == "" || end.error.StreamDivergence?);
    }

    /** A new attempt starts from the accepted text. */
    method Restart()
      requires Valid()
      modifies this`diverged, this`start
      ensures Valid() && start == |told|
    {
      diverged, start := false, |told|;
      assert told[start..] == [];
    }
  }

  // ---------- the frames of a text ----------

  /** What the checks say of a decoded frame. */
  datatype Screening = Fine | SafetyBlock | BackendError(error: StreamError) | TooLarge

  type Screen = Frame -> Screening

  datatype FeedEnd = AllFed | Blocked | FeedFailed(error: StreamError)

  /** The verdict on decoded frames: that of the first one that is not fine. */
  function Verdict(frames: seq<Frame>, screen: Screen): (end: FeedEnd) {
    if frames == [] then AllFed
    else match screen(frames[0])
      case Fine => Verdict(frames[1..], screen)
      case SafetyBlock => Blocked
      case BackendError(e) => FeedFailed(e)
      case TooLarge => FeedFailed(Other)
  }

  /** What happens to them. */
  function Passed(frames: seq<Frame>, screen: Screen): seq<Told> {
    if frames == [] then []
    else match screen(frames[0])
      case Fine => [Emitted(frames[0])] + Passed(frames[1..], screen)
      case SafetyBlock => [Reported]
      case BackendError(_) => []
      case TooLarge => []
  }

  function AllEmitted(frames: seq<Frame>): seq<Told> {
    seq(|frames|, i requires 0 <= i < |frames| => Emitted(frames[i]))
  }

  /** Frames that are all fine are all emitted. */
  lemma {:induction false} FineFramesPass(frames: seq<Frame>, more: seq<Frame>, screen: Screen)
    requires forall f | f in frames :: screen(f).Fine?
    ensures Verdict(frames + more, screen) == Verdict(more, screen)
    ensures Passed(frames + more, screen) == AllEmitted(frames) + Passed(more, screen)
  {
    if frames == [] {
      assert frames + more == more;
      assert AllEmitted(frames) + Passed(more, screen) == Passed(more, screen);
    } else {
      assert frames[0] in frames && (frames + more)[1..] == frames[1..] + more;
      FineFramesPass(frames[1..], more, screen);
      assert AllEmitted(frames) == [Emitted(frames[0])] + AllEmitted(frames[1..]);
      Associative([Emitted(frames[0])], AllEmitted(frames[1..]), Passed(more, screen));
    }
  }

  /** The first frame that is not fine decides, and nothing behind it is looked at. */
  lemma FirstTroubleDecides(frames: seq<Frame>, k: nat, screen: Screen)
    requires k < |frames| && (forall i | 0 <= i < k :: screen(frames[i]).Fine?) && !screen(frames[k]).Fine?
    ensures match screen(frames[k])
      case SafetyBlock => Verdict(frames, screen) == Blocked
      case BackendError(e) => Verdict(frames, screen) == FeedFailed(e)
      case TooLarge => Verdict(frames, screen) == FeedFailed(Other)
    ensures Passed(frames, screen)
         == AllEmitted(frames[..k]) + if screen(frames[k]).SafetyBlock? then [Reported] else []
  {
    assert frames == frames[..k] + frames[k..];
    FineFramesPass(frames[..k], frames[k..], screen);
  }

  /** Without trouble all frames are emitted. */
  lemma {:induction false} VerdictIsClean(frames: seq<Frame>, screen: Screen)
    ensures Verdict(frames, screen).AllFed? <==> forall f | f in frames :: screen(f).Fine?
    ensures Verdict(frames, screen).AllFed? ==> Passed(frames, screen) == AllEmitted(frames)
  {
    if frames != [] {
      VerdictIsClean(frames[1..], screen);
      assert frames == [frames[0]] + frames[1..];
      assert AllEmitted(frames) == [Emitted(frames[0])] + AllEmitted(frames[1..]);
    }
  }

  lemma PassedStep(told: seq<Told>, frames: seq<Frame>, k: nat, screen: Screen)
    requires k < |frames|
    ensures var f, rest := frames[k], frames[k..];
      && Verdict(rest, screen) == (if screen(f).Fine? then Verdict(frames[k + 1..], screen) else Verdict([f], screen))
      && told + Passed(rest, screen)
         == if screen(f).Fine? then (told + [Emitted(f)]) + Passed(frames[k + 1..], screen)
            else if screen(f).SafetyBlock? then told + [Reported] else told
  {
    assert frames[k..][1..] == frames[k + 1..];
    Associative(told, [Emitted(frames[k])], Passed(frames[k + 1..], screen));
  }

  /** The stream after steps that were meant to happen: exactly these if the receiver still listens. */
  twostate predicate Went(s: DeltaStream, steps: seq<Told>)
    reads s
  {
    && s.Valid() && s.start == old(s.start) && old(s.told) <= s.told && (s.open ==> s.told == old(s.told) + steps)
    && old(s.sent) <= s.sent && (s.open ==> old(s.open))
  }

  /** The frames of decoded text: each is screened, then emitted. */
  method FeedFrames(s: DeltaStream, frames: seq<Frame>, screen: Screen) returns (end: FeedEnd)
    requires s.Valid()
    modifies s
    ensures Went(s, Passed(frames, screen))
    ensures end == Verdict(frames, screen) || (!s.open && end == FeedFailed(Other))
    ensures !end.FeedFailed? ==> s.told == old(s.told) + Passed(frames, screen)
  {
    ghost var whole := s.told + Passed(frames, screen);
    assert frames[0..] == frames;
    for k := 0 to |frames|
      invariant s.Valid() && s.start == old(s.start) && old(s.told) <= s.told
      invariant s.told + Passed(frames[k..], screen) == whole
      invariant Verdict(frames[k..], screen) == Verdict(frames, screen)
      invariant old(s.sent) <= s.sent && (s.open ==> old(s.open))
    {
      PassedStep(s.told, frames, k, screen);
      match screen(frames[k]) {
        case SafetyBlock =>
          s.ReportError();
          return Blocked;
        case BackendError(e) => return FeedFailed(e);
        case TooLarge => return FeedFailed(Other);
        case Fine =>
          var ok := s.Emit(frames[k]);
          if !ok { return FeedFailed(Other); }
      }
    }
    assert frames[|frames|..] == [] && s.told + [] == s.told;
    end := AllFed;
  }

  // ---------- one attempt ----------

  /** The last frames of a response are only checked for their size. */
  predicate Fits(frames: seq<Frame>, screen: Screen) {
    forall f | f in frames :: !screen(f).TooLarge?
  }

  function Flushed(frames: seq<Frame>, screen: Screen): seq<Told> {
    if frames == [] || screen(frames[0]).TooLarge? then []
    else [Emitted(frames[0])] + Flushed(frames[1..], screen)
  }

  lemma FlushedStep(told: seq<Told>, frames: seq<Frame>, k: nat, screen: Screen)
    requires k < |frames|
    ensures screen(frames[k]).TooLarge? ==> !Fits(frames, screen) && told + Flushed(frames[k..], screen) == told
    ensures !screen(frames[k]).TooLarge? ==>
      told + Flushed(frames[k..], screen) == (told + [Emitted(frames[k])]) + Flushed(frames[k + 1..], screen)
  {
    assert frames[k..][1..] == frames[k + 1..] && frames[k] in frames;
    Associative(told, [Emitted(frames[k])], Flushed(frames[k + 1..], screen));
  }

  lemma {:induction false} FittingIsFlushed(frames: seq<Frame>, screen: Screen)
    requires Fits(frames, screen)
    ensures Flushed(frames, screen) == AllEmitted(frames)
  {
    if frames != [] {
      assert frames[0] in frames;
      FittingIsFlushed(frames[1..], screen);
      assert AllEmitted(frames) == [Emitted(frames[0])] + AllEmitted(frames[1..]);
    }
  }

  method FlushFrames(s: DeltaStream, frames: seq<Frame>, screen: Screen) returns (ok: bool)
    requires s.Valid()
    modifies s
    ensures Went(s, Flushed(frames, screen))
    ensures ok ==> Fits(frames, screen) && s.told == old(s.told) + Flushed(frames, screen)
    ensures !ok ==> !s.open || !Fits(frames, screen)
  {
    ghost var whole := s.told + Flushed(frames, screen);
    assert frames[0..] == frames;
    for k := 0 to |frames|
      invariant s.Valid() && s.start == old(s.start) && old(s.told) <= s.told
      invariant s.told + Flushed(frames[k..], screen) == whole
      invariant forall i | 0 <= i < k :: !screen(frames[i]).TooLarge?
      invariant old(s.sent) <= s.sent && (s.open ==> old(s.open))
    {
      FlushedStep(s.told, frames, k, screen);
      if screen(frames[k]).TooLarge? { return false; }
      ok := s.Emit(frames[k]);
      if !ok { return; }
    }
    assert frames[|frames|..] == [] && s.told + [] == s.told;
    ok := true;
  }

  /** What one HTTP attempt brings: it fails at once, breaks off, or runs to its end; chunk by chunk. */
  datatype Response =
    | Refused(error: StreamError)
    | Broken(chunks: seq<seq<Frame>>)
    | Complete(chunks: seq<seq<Frame>>, tail: seq<Frame>, rest: seq<Frame>, blank: bool)

  datatype AttemptEnd = Completed | StoppedEarly | Failed(error: StreamError)

  datatype Fate = Fate(told: seq<Told>, end: AttemptEnd)

  /** The end of a response whose body was read: `told` is what happened in it before. */
  function BodyFate(before: seq<Told>, told: seq<Told>, tail: seq<Frame>, rest: seq<Frame>, blank: bool, screen: Screen)
    : Fate
  {
    var fed := told + Passed(tail, screen);
    match Verdict(tail, screen)
    case FeedFailed(e) => Fate(fed, Failed(e))
    case AllFed => RestFate(before, fed, rest, false, blank, screen)
    case Blocked => RestFate(before, fed, rest, true, blank, screen)
  }

  /** What the last frames and the accepted text decide. */
  function RestFate(before: seq<Told>, told: seq<Told>, rest: seq<Frame>, blocked: bool, blank: bool, screen: Screen)
    : Fate
  {
    var all := told + Flushed(rest, screen);
    if !Fits(rest, screen) then Fate(all, Failed(Other))
    else if blocked then Fate(all, StoppedEarly)
    else TextFate(before, all, blank)
  }

  /** The verdict on the accepted text. */
  function TextFate(before: seq<Told>, told: seq<Told>, blank: bool): Fate {
    if Diverges(Accepted(before + told), told) then Fate(told, Failed(StreamDivergence))
    else Fate(told + BlankReport(before + told, blank), Completed)
  }

  /** An empty response is reported. */
  function BlankReport(told: seq<Told>, blank: bool): seq<Told> {
    if Accepted(told) == "" && Known(told) == {} && blank then [Reported] else []
  }

  /** The frames that were read decide, or what comes after them. */
  function ReadFate(frames: seq<Frame>, screen: Screen, after: Fate): Fate {
    match Verdict(frames, screen)
    case Blocked => Fate(Passed(frames, screen), StoppedEarly)
    case FeedFailed(e) => Fate(Passed(frames, screen), Failed(e))
    case AllFed => after
  }

  /** What becomes of an attempt while the receiver listens. */
  function FateOf(before: seq<Told>, r: Response, screen: Screen): Fate {
    match r
    case Refused(e) => Fate([], Failed(e))
    case Broken(chunks) =>
      ReadFate(Flatten(chunks), screen, Fate(Passed(Flatten(chunks), screen), Failed(Other)))
    case Complete(chunks, tail, rest, blank) =>
      var frames := Flatten(chunks);
      ReadFate(frames, screen, BodyFate(before, Passed(frames, screen), tail, rest, blank, screen))
  }

  /** The frames of a response, in order. */
  function FramesOf(r: Response): seq<Frame> {
    match r
    case Refused(_) => []
    case Broken(chunks) => Flatten(chunks)
    case Complete(chunks, tail, rest, _) => Flatten(chunks) + (tail + rest)
  }

  /** The end of an attempt is its fate, unless the receiver has left. */
  predicate EndsAs(end: AttemptEnd, fate: AttemptEnd, open: bool) {
    end == fate || (!open && end in {StoppedEarly, Failed(Other)})
  }

  lemma {:induction false} PassedAppend(a: seq<Frame>, b: seq<Frame>, screen: Screen)
    ensures if Verdict(a, screen).AllFed?
            then Verdict(a + b, screen) == Verdict(b, screen)
                 && Passed(a + b, screen) == Passed(a, screen) + Passed(b, screen)
            else Verdict(a + b, screen) == Verdict(a, screen) && Passed(a + b, screen) == Passed(a, screen)
  {
    if a == [] {
      assert a + b == b && Passed(a, screen) + Passed(b, screen) == Passed(b, screen);
    } else {
      assert (a + b)[1..] == a[1..] + b;
      PassedAppend(a[1..], b, screen);
      Associative([Emitted(a[0])], Passed(a[1..], screen), Passed(b, screen));
    }
  }

  /** What happened since `before` is what was meant to happen, if the receiver still listens. */
  ghost predicate Reached(s: DeltaStream, before: seq<Told>, steps: seq<Told>)
    reads s
  {
    s.Valid() && s.start == |before| && before <= s.told && (s.open ==> s.told == before + steps)
  }

  method JudgeText(s: DeltaStream, blank: bool, ghost before: seq<Told>, ghost told: seq<Told>)
    returns (end: AttemptEnd)
    requires s.Valid() && s.start == |before| && s.told == before + told
    modifies s
    ensures var fate := TextFate(before, told, blank);
      Reached(s, before, fate.told) && end == fate.end
    ensures old(s.sent) <= s.sent && (s.open ==> old(s.open))
  {
    assert s.told[s.start..] == told && told + [] == told;
    end := Completed;
    if s.diverged {
      end := Failed(StreamDivergence);
    } else if s.emitted == "" && s.emittedTools == {} && blank {
      Associative(before, told, [Reported]);
      s.ReportError();
    }
  }

  /** The last frames of a response, then the verdict on the text. */
  method FinishRest(s: DeltaStream, rest: seq<Frame>, blocked: bool, blank: bool, screen: Screen,
                    ghost before: seq<Told>, ghost fed: seq<Told>) returns (end: AttemptEnd)
    requires s.Valid() && s.start == |before| && s.told == before + fed
    modifies s
    ensures var fate := RestFate(before, fed, rest, blocked, blank, screen);
      Reached(s, before, fate.told) && EndsAs(end, fate.end, s.open)
    ensures old(s.sent) <= s.sent && (s.open ==> old(s.open))
  {
    Associative(before, fed, Flushed(rest, screen));
    var flushed := FlushFrames(s, rest, screen);
    if !flushed { return Failed(Other); }
    if blocked { return StoppedEarly; }
    end := JudgeText(s, blank, before, fed + Flushed(rest, screen));
  }

  /** The end of a response body: what the decoders still hold comes first. */
  method FinishBody(s: DeltaStream, tail: seq<Frame>, rest: seq<Frame>, blank: bool, screen: Screen,
                    ghost before: seq<Told>, ghost done: seq<Told>) returns (end: AttemptEnd)
    requires s.Valid() && s.start == |before| && s.told == before + done
    modifies s
    ensures var fate := BodyFate(before, done, tail, rest, blank, screen);
      Reached(s, before, fate.told) && EndsAs(end, fate.end, s.open)
    ensures old(s.sent) <= s.sent && (s.open ==> old(s.open))
  {
    Associative(before, done, Passed(tail, screen));
    var verdict := FeedFrames(s, tail, screen);
    if verdict.FeedFailed? { return Failed(verdict.error); }
    end := FinishRest(s, rest, verdict.Blocked?, blank, screen, before, done + Passed(tail, screen));
  }

  lemma ChunkStep(told: seq<Told>, chunks: seq<seq<Frame>>, k: nat, screen: Screen)
    requires k < |chunks|
    ensures var now, all, later := chunks[k], Flatten(chunks[k..]), Flatten(chunks[k + 1..]);
      if Verdict(now, screen).AllFed?
      then Verdict(all, screen) == Verdict(later, screen)
           && told + Passed(all, screen) == (told + Passed(now, screen)) + Passed(later, screen)
      else Verdict(all, screen) == Verdict(now, screen) && Passed(all, screen) == Passed(now, screen)
  {
    assert chunks[k..][1..] == chunks[k + 1..];
    PassedAppend(chunks[k], Flatten(chunks[k + 1..]), screen);
    Associative(told, Passed(chunks[k], screen), Passed(Flatten(chunks[k + 1..]), screen));
  }

  /** The chunks of a response body. Between two of them the receiver may leave, which may be noticed at once. */
  method ReadChunks(s: DeltaStream, chunks: seq<seq<Frame>>, screen: Screen) returns (end: Option<AttemptEnd>)
    requires s.Valid()
    modifies s
    ensures var frames := Flatten(chunks);
      && Went(s, Passed(frames, screen))
      && match end
         case None => Verdict(frames, screen).AllFed? && s.told == old(s.told) + Passed(frames, screen)
         case Some(e) =>
           || (!s.open && e in {StoppedEarly, Failed(Other)})
           || (!Verdict(frames, screen).AllFed? && e == ReadFate(frames, screen, Fate([], Completed)).end)
  {
    ghost var frames := Flatten(chunks);
    ghost var whole := s.told + Passed(frames, screen);
    assert chunks[0..] == chunks;
    for k := 0 to |chunks|
      invariant s.Valid() && s.start == old(s.start) && old(s.told) <= s.told
      invariant s.told + Passed(Flatten(chunks[k..]), screen) == whole
      invariant Verdict(Flatten(chunks[k..]), screen) == Verdict(frames, screen)
      invariant old(s.sent) <= s.sent && (s.open ==> old(s.open))
    {
      ChunkStep(s.told, chunks, k, screen);
      s.Wait();
      var noticed: bool := *;
      if noticed && !s.open { return Some(StoppedEarly); }
      var fed := FeedFrames(s, chunks[k], screen);
      match fed {
        case Blocked => return Some(StoppedEarly);
        case FeedFailed(e) => return Some(Failed(e));
        case AllFed =>
      }
    }
    assert chunks[|chunks|..] == [] && s.told + [] == s.told;
    end := None;
  }

  /** `attempt_http`: the receiver may leave at any time. */
  method Attempt(s: DeltaStream, response: Response, screen: Screen) returns (end: AttemptEnd)
    requires s.Valid() && s.start == |s.told|
    modifies s
    ensures var fate := FateOf(old(s.told), response, screen);
      Reached(s, old(s.told), fate.told) && EndsAs(end, fate.end, s.open)
    ensures old(s.sent) <= s.sent && (s.open ==> old(s.open))
  {
    ghost var before := s.told;
    assert before + [] == before;
    if response.Refused? { return Failed(response.error); }
    var stopped := ReadChunks(s, response.chunks, screen);
    if stopped.Some? { return stopped.value; }
    s.Wait();
    var noticed: bool := *;
    if noticed && !s.open { return StoppedEarly; }
    if response.Broken? { return Failed(Other); }
    end := FinishBody(s, response.tail, response.rest, response.blank, screen, before,
                      Passed(Flatten(response.chunks), screen));
  }

  // ---------- the meaning of the fates ----------

  lemma AllEmittedAppend(a: seq<Frame>, b: seq<Frame>)
    ensures AllEmitted(a + b) == AllEmitted(a) + AllEmitted(b)
  {
  }

  /** An attempt completes only on a whole response, all of whose frames were emitted. */
  lemma CompletedMeans(before: seq<Told>, r: Response, screen: Screen)
    requires FateOf(before, r, screen).end.Completed?
    ensures r.Complete?
    ensures AllEmitted(FramesOf(r)) <= FateOf(before, r, screen).told
    ensures LastTold(AllEmitted(FramesOf(r))) in {None, Some(Accepted(before + AllEmitted(FramesOf(r))))}
  {
    var frames := Flatten(r.chunks);
    VerdictIsClean(frames, screen);
    VerdictIsClean(r.tail, screen);
    FittingIsFlushed(r.rest, screen);
    AllEmittedAppend(r.tail, r.rest);
    AllEmittedAppend(frames, r.tail + r.rest);
    Associative(AllEmitted(frames), AllEmitted(r.tail), AllEmitted(r.rest));
    var all := AllEmitted(FramesOf(r));
    assert all == AllEmitted(frames) + AllEmitted(r.tail) + AllEmitted(r.rest);
    AcceptedLast(before, all);
  }

  /** The last snapshot is the accepted text, or it does not extend it. */
  lemma {:induction false} AcceptedLast(before: seq<Told>, told: seq<Told>)
    ensures var last, text := LastTold(told), Accepted(before + told);
      last.None? || last.value == text || !(text <= last.value)
  {
    if told != [] {
      var n := |told| - 1;
      AcceptedLast(before, told[..n]);
      assert (before + told)[..|before| + n] == before + told[..n];
    }
  }

  /** A response that is refused fails with its own error, one that breaks off without trouble with a network error. */
  lemma BrokenMeans(before: seq<Told>, r: Response, screen: Screen)
    ensures r.Refused? ==> FateOf(before, r, screen) == Fate([], Failed(r.error))
    ensures r.Broken? && (forall f | f in Flatten(r.chunks) :: screen(f).Fine?) ==>
      FateOf(before, r, screen) == Fate(AllEmitted(Flatten(r.chunks)), Failed(Other))
  {
    if r.Broken? { VerdictIsClean(Flatten(r.chunks), screen); }
  }

  /** A frame that reports a backend error ends the attempt with this error, behind everything that came before it. */
  lemma BackendErrorMeans(before: seq<Told>, r: Response, screen: Screen, k: nat)
    requires !r.Refused? && k < |Flatten(r.chunks)|
    requires forall i | 0 <= i < k :: screen(Flatten(r.chunks)[i]).Fine?
    requires screen(Flatten(r.chunks)[k]).BackendError?
    ensures FateOf(before, r, screen)
         == Fate(AllEmitted(Flatten(r.chunks)[..k]), Failed(screen(Flatten(r.chunks)[k]).error))
  {
    FirstTroubleDecides(Flatten(r.chunks), k, screen);
    assert AllEmitted(Flatten(r.chunks)[..k]) + [] == AllEmitted(Flatten(r.chunks)[..k]);
  }

  /** A blocked frame ends the attempt without an error, after it was reported. */
  lemma BlockMeans(before: seq<Told>, r: Response, screen: Screen, k: nat)
    requires !r.Refused? && k < |Flatten(r.chunks)|
    requires forall i | 0 <= i < k :: screen(Flatten(r.chunks)[i]).Fine?
    requires screen(Flatten(r.chunks)[k]).SafetyBlock?
    ensures FateOf(before, r, screen) == Fate(AllEmitted(Flatten(r.chunks)[..k]) + [Reported], StoppedEarly)
  {
    FirstTroubleDecides(Flatten(r.chunks), k, screen);
  }

  /** A whole response without trouble completes, or fails because its last snapshot is not the accepted text. */
  lemma FineResponseMeans(before: seq<Told>, r: Response, screen: Screen)
    requires r.Complete? && forall f | f in FramesOf(r) :: screen(f).Fine?
    ensures var fate, all := FateOf(before, r, screen), AllEmitted(FramesOf(r));
      var last := LastTold(all);
      if last.None? || last.value == Accepted(before + all)
      then fate.end == Completed && all <= fate.told <= all + [Reported]
      else fate == Fate(all, Failed(StreamDivergence))
  {
    hide AllEmitted, LastTold, Accepted;
    var frames := Flatten(r.chunks);
    assert forall f | f in frames :: f in FramesOf(r);
    assert forall f | f in r.tail :: f in FramesOf(r);
    assert forall f | f in r.rest :: f in FramesOf(r);
    VerdictIsClean(frames, screen);
    VerdictIsClean(r.tail, screen);
    FittingIsFlushed(r.rest, screen);
    AllEmittedAppend(r.tail, r.rest);
    AllEmittedAppend(frames, r.tail + r.rest);
    Associative(AllEmitted(frames), AllEmitted(r.tail), AllEmitted(r.rest));
    AcceptedLast(before, AllEmitted(FramesOf(r)));
  }

  // ---------- all attempts of a turn ----------

  method NextResponse() returns (r: Response) { r := *; }

  /** Everything that happens in the given attempts while the receiver listens. */
  function Story(responses: seq<Response>, screen: Screen): seq<Told> {
    if responses == [] then []
    else
      var n := |responses| - 1;
      Story(responses[..n], screen) + FateOf(Story(responses[..n], screen), responses[n], screen).told
  }

  /** How the attempt with this response ends. */
  function EndOf(responses: seq<Response>, k: nat, screen: Screen): AttemptEnd
    requires k < |responses|
  {
    FateOf(Story(responses[..k], screen), responses[k], screen).end
  }

  lemma StorySnoc(responses: seq<Response>, r: Response, screen: Screen)
    ensures var fate := FateOf(Story(responses, screen), r, screen);
      && Story(responses + [r], screen) == Story(responses, screen) + fate.told
      && EndOf(responses + [r], |responses|, screen) == fate.end
    ensures forall k | 0 <= k < |responses| :: EndOf(responses + [r], k, screen) == EndOf(responses, k, screen)
  {
    assert (responses + [r])[..|responses|] == responses;
    forall k | 0 <= k < |responses|
      ensures EndOf(responses + [r], k, screen) == EndOf(responses, k, screen)
    {
      assert (responses + [r])[..k] == responses[..k];
    }
  }

  /** Another attempt may follow: the error is recoverable, no tool was sent, and text only if it diverged. */
  predicate MayRetry(told: seq<Told>, end: AttemptEnd) {
    && end.Failed? && !Fatal(end.error)
    && Known(told) == {} && (Accepted(told) == "" || end.error.StreamDivergence?)
  }

  /** Every attempt but the last failed in a way that allows another one. */
  ghost predicate Retried(responses: seq<Response>, screen: Screen) {
    forall k | 0 <= k < |responses| - 1 :: RetriedAt(responses, k, screen)
  }

  predicate RetriedAt(responses: seq<Response>, k: nat, screen: Screen)
    requires k < |responses|
  {
    MayRetry(Story(responses[..k + 1], screen), EndOf(responses, k, screen))
  }

  lemma RetriedAtSnoc(responses: seq<Response>, r: Response, k: nat, screen: Screen)
    requires k < |responses|
    ensures RetriedAt(responses + [r], k, screen) == RetriedAt(responses, k, screen)
  {
    assert (responses + [r])[..k + 1] == responses[..k + 1];
    assert (responses + [r])[..k] == responses[..k];
  }

  lemma RetriedLast(responses: seq<Response>, screen: Screen)
    requires responses != []
    ensures RetriedAt(responses, |responses| - 1, screen)
         == MayRetry(Story(responses, screen), EndOf(responses, |responses| - 1, screen))
  {
    assert responses[..|responses|] == responses;
  }

  predicate NoTools(told: seq<Told>) {
    forall i | 0 <= i < |told| :: !IsTool(told[i])
  }

  /** The response diverged from the accepted text, or failed for another reason while no text was accepted. */
  predicate MendedByRetry(told: seq<Told>, end: AttemptEnd) {
    end == Failed(StreamDivergence) || (end == Failed(Other) && Accepted(told) == "")
  }

  lemma RetryMeans(told: seq<Told>, end: AttemptEnd)
    ensures MayRetry(told, end) <==> NoTools(told) && MendedByRetry(told, end)
  {
    hide NoTools, Accepted, Known;
    NothingKnown(told);
  }

  /** Expired cookies, a rejection and an unknown model are final, and so is everything once a tool was sent. */
  lemma RetriesExactlyWhen(responses: seq<Response>, screen: Screen)
    requires responses != []
    ensures var told, end := Story(responses, screen), EndOf(responses, |responses| - 1, screen);
      Again(responses, screen) <==> NoTools(told) && MendedByRetry(told, end)
  {
    hide MayRetry, NoTools, MendedByRetry, Story, EndOf;
    RetryMeans(Story(responses, screen), EndOf(responses, |responses| - 1, screen));
  }

  /** No attempt but the last sent a tool, or failed for another reason. */
  lemma EarlierAttemptsMayFail(responses: seq<Response>, screen: Screen, k: nat)
    requires Retried(responses, screen) && k < |responses| - 1
    ensures var told := Story(responses[..k + 1], screen);
      NoTools(told) && MendedByRetry(told, EndOf(responses, k, screen))
  {
    hide MayRetry, NoTools, MendedByRetry, Story, EndOf;
    assert RetriedAt(responses, k, screen);
    RetryMeans(Story(responses[..k + 1], screen), EndOf(responses, k, screen));
  }

  lemma {:induction false} NothingKnown(told: seq<Told>)
    ensures Known(told) == {} <==> NoTools(told)
  {
    if told != [] {
      var n := |told| - 1;
      NothingKnown(told[..n]);
      assert NoTools(told) <==> NoTools(told[..n]) && !IsTool(told[n]);
      assert IsTool(told[n]) ==> told[n].frame.id in Known(told);
    }
  }

  function ErrorOf(end: AttemptEnd): Option<StreamError> {
    match end
    case Failed(e) => Some(e)
    case _ => None
  }

  /** The last attempt failed in a way that allows another one. */
  predicate Again(responses: seq<Response>, screen: Screen) {
    responses != [] && MayRetry(Story(responses, screen), EndOf(responses, |responses| - 1, screen))
  }

  lemma RetriedSnoc(responses: seq<Response>, r: Response, screen: Screen)
    requires Retried(responses, screen)
    requires responses == [] || Again(responses, screen)
    ensures Retried(responses + [r], screen)
  {
    forall k | 0 <= k < |responses|
      ensures RetriedAt(responses + [r], k, screen)
    {
      RetriedAtSnoc(responses, r, k, screen);
      if k == |responses| - 1 { RetriedLast(responses, screen); }
    }
  }

  /** The number of attempts: at least one. */
  function Attempts(retryAttempts: nat): nat {
    if retryAttempts == 0 then 1 else retryAttempts
  }

  /** What a turn returns: the error of its last attempt, or nothing if the receiver has left. */
  ghost predicate TurnReturned(error: Option<StreamError>, responses: seq<Response>, screen: Screen, open: bool) {
    if responses == [] then error.None? && !open
    else error == ErrorOf(EndOf(responses, |responses| - 1, screen)) || (!open && error in {None, Some(Other)})
  }

  /**
   * `run_turn`, over all attempts and wherever the receiver leaves. While it listens, it was sent what the frames of
   * all responses call for; the turn returns the error of its last attempt, and no error exactly if that attempt
   * completed or was blocked. Another attempt follows exactly if the error allows it and attempts are left.
   */
  method RunTurn(clean: string -> string, screen: Screen, retryAttempts: nat)
    returns (s: DeltaStream, error: Option<StreamError>, ghost responses: seq<Response>)
    ensures s.Valid() && |responses| <= Attempts(retryAttempts) && Retried(responses, screen)
    ensures TurnReturned(error, responses, screen, s.open)
    ensures s.open ==> s.sent == ItemsOf(s.clean, Story(responses, screen)) && s.clean == clean
    ensures s.open && error.Some? ==>
      |responses| == Attempts(retryAttempts) || !Again(responses, screen)
  {
    var attempts := Attempts(retryAttempts);
    s := new DeltaStream(clean);
    responses := [];
    var attempt := 1;
    while true
      invariant s.Valid() && s.start == |s.told| && s.clean == clean && fresh(s)
      invariant 1 <= attempt <= attempts && |responses| == attempt - 1
      invariant s.open ==> s.told == Story(responses, screen)
      invariant Retried(responses, screen)
      invariant s.open ==> responses == [] || Again(responses, screen)
      invariant TurnReturned(None, responses, screen, false)
      decreases attempts - attempt
    {
      s.Wait();
      if !s.open { return s, None, responses; }
      var end;
      end, responses := NextAttempt(s, screen, responses);
      if !end.Failed? { return s, None, responses; }
      if Fatal(end.error) { return s, Some(end.error), responses; }
      var again := s.AllowsRetry(end);
      if attempt < attempts && again {
        s.Restart();
        s.Wait();
        if !s.open { return s, None, responses; }
        attempt := attempt + 1;
      } else {
        return s, Some(end.error), responses;
      }
    }
  }

  /** One more attempt of a turn whose receiver listens. */
  method NextAttempt(s: DeltaStream, screen: Screen, ghost before: seq<Response>)
    returns (end: AttemptEnd, ghost responses: seq<Response>)
    requires s.Valid() && s.start == |s.told| && s.open && s.told == Story(before, screen)
    requires Retried(before, screen) && (before == [] || Again(before, screen))
    modifies s
    ensures s.Valid() && |responses| == |before| + 1 && Retried(responses, screen)
    ensures TurnReturned(ErrorOf(end), responses, screen, s.open) && TurnReturned(None, responses, screen, false)
    ensures s.open ==> s.told == Story(responses, screen) && Again(responses, screen) == MayRetry(s.told, end)
  {
    var response := NextResponse();
    StorySnoc(before, response, screen);
    RetriedSnoc(before, response, screen);
    end := Attempt(s, response, screen);
    responses := before + [response];
  }
}
