/**
 The Gemini wire mapping (adapters/google.py): function responses are matched by name,
 through a map from call ids to names that is kept over the whole history, and calls
 without a wire id are given minted ones.
 */
module Google {
  import opened Options
  import opened Conversation
  import opened Numerals

  const PROVIDER := "google"

  datatype Role = User | Model

  // `signed` marks the skip-validation signature of a call part built by the adapter;
  // a replayed part is passed back as the provider sent it.
  datatype Part =
    | TextPart(text: string)
    | CallPart(name: string, args: string, signed: bool)
    | ResponsePart(name: string, content: string, isError: bool)
    | ReplayedPart(block: Block)

  datatype Content = Content(role: Role, parts: seq<Part>)

  // The contents built so far and the id-to-name map.
  datatype Mapping = Mapping(contents: seq<Content>, names: map<string, string>)

  predicate IsFunctionResponseContent(c: Content) {
    c.role == User && c.parts != [] && c.parts[0].ResponsePart?
  }

  function Learn(names: map<string, string>, calls: seq<ToolCall>): map<string, string> {
    if calls == [] then names else
      var c := calls[|calls| - 1];
      Learn(names, calls[..|calls| - 1])[c.id := c.name]
  }

  function Resolve(names: map<string, string>, id: string): string {
    if id in names then names[id] else id
  }

  function CallParts(calls: seq<ToolCall>): seq<Part> {
    if calls == [] then [] else
      var c := calls[|calls| - 1];
      CallParts(calls[..|calls| - 1]) + [CallPart(c.name, c.args, true)]
  }

  function Replay(payload: seq<Block>): seq<Part> {
    seq(|payload|, i requires 0 <= i < |payload| => ReplayedPart(payload[i]))
  }

  function TurnParts(said: Option<string>, calls: seq<ToolCall>, state: Option<ProviderState>): seq<Part> {
    if state.Some? && state.value.provider == PROVIDER then Replay(state.value.payload)
    else (if said.Some? && said.value != "" then [TextPart(said.value)] else []) + CallParts(calls)
  }

  function MapStep(g: Mapping, m: Message): Mapping {
    match m
    case UserMessage(text) => g.(contents := g.contents + [Content(User, [TextPart(text)])])
    case AssistantMessage(said, calls, state) =>
      Mapping(g.contents + [Content(Model, TurnParts(said, calls, state))], Learn(g.names, calls))
    case ToolResultMessage(id, content, isError) =>
      var part := ResponsePart(Resolve(g.names, id), content, isError);
      var n := |g.contents|;
      if n > 0 && IsFunctionResponseContent(g.contents[n - 1])
      then g.(contents := g.contents[n - 1 := Content(User, g.contents[n - 1].parts + [part])])
      else g.(contents := g.contents + [Content(User, [part])])
  }

  function Map(ms: seq<Message>): Mapping {
    if ms == [] then Mapping([], map[]) else MapStep(Map(ms[..|ms| - 1]), ms[|ms| - 1])
  }

  method LearnNames(names: map<string, string>, calls: seq<ToolCall>) returns (learned: map<string, string>)
    ensures learned == Learn(names, calls)
  {
    learned := names;
    for j := 0 to |calls|
      invariant learned == Learn(names, calls[..j])
    {
      assert calls[..j + 1][..j] == calls[..j];
      learned := learned[calls[j].id := calls[j].name];
    }
    assert calls[..|calls|] == calls;
  }

  method PartsOfTurn(said: Option<string>, calls: seq<ToolCall>) returns (parts: seq<Part>)
    ensures parts == TurnParts(said, calls, None)
  {
    parts := [];
    if said.Some? && said.value != "" {
      parts := parts + [TextPart(said.value)];
    }
    ghost var opening := parts;
    for j := 0 to |calls|
      invariant parts == opening + CallParts(calls[..j])
    {
      assert calls[..j + 1][..j] == calls[..j];
      parts := parts + [CallPart(calls[j].name, calls[j].args, true)];
    }
    assert calls[..|calls|] == calls;
  }

  method ToWireContents(messages: seq<Message>) returns (contents: seq<Content>)
    ensures contents == Map(messages).contents
  {
    contents := [];
    var callNames: map<string, string> := map[];
    for i := 0 to |messages|
      invariant Mapping(contents, callNames) == Map(messages[..i])
    {
      assert messages[..i + 1][..i] == messages[..i];
      match messages[i] {
        case UserMessage(text) =>
          contents := contents + [Content(User, [TextPart(text)])];
        case AssistantMessage(said, calls, state) =>
          callNames := LearnNames(callNames, calls);
          if state.Some? && state.value.provider == PROVIDER {
            contents := contents + [Content(Model, Replay(state.value.payload))];
            continue;
          }
          var parts := PartsOfTurn(said, calls);
          contents := contents + [Content(Model, parts)];
        case ToolResultMessage(id, content, isError) =>
          var part := ResponsePart(if id in callNames then callNames[id] else id, content, isError);
          if contents != [] && IsFunctionResponseContent(contents[|contents| - 1]) {
            var last := contents[|contents| - 1];
            contents := contents[|contents| - 1 := last.(parts := last.parts + [part])];
          } else {
            contents := contents + [Content(User, [part])];
          }
      }
    }
    assert messages[..|messages|] == messages;
  }

  // --- each maximal run of results is one content -----------------------------------

  // The runs after one more message; `joins` when the message before it is a result.
  function NextRuns(runs: seq<seq<Message>>, m: Message, joins: bool): seq<seq<Message>> {
    if !m.ToolResultMessage? then runs
    else if joins && runs != [] then runs[|runs| - 1 := runs[|runs| - 1] + [m]]
    else runs + [[m]]
  }

  // The maximal runs of consecutive results in a history.
  function Runs(ms: seq<Message>): seq<seq<Message>> {
    if ms == [] then [] else
      var n := |ms| - 1;
      NextRuns(Runs(ms[..n]), ms[n], EndsInResults(ms[..n]))
  }

  function ResponseContents(cs: seq<Content>): seq<Content> {
    if cs == [] then [] else
      ResponseContents(cs[..|cs| - 1]) + if IsFunctionResponseContent(cs[|cs| - 1]) then [cs[|cs| - 1]] else []
  }

  // A content carries exactly one response per result of the run, in order.
  predicate Carries(c: Content, run: seq<Message>) {
    && |c.parts| == |run|
    && forall i :: 0 <= i < |run| ==>
         && c.parts[i].ResponsePart? && run[i].ToolResultMessage?
         && c.parts[i].content == run[i].content && c.parts[i].isError == run[i].isError
  }

  predicate CarriesAll(cs: seq<Content>, runs: seq<seq<Message>>) {
    |cs| == |runs| && forall i :: 0 <= i < |cs| ==> Carries(cs[i], runs[i])
  }

  predicate EndsInResults(ms: seq<Message>) {
    ms != [] && ms[|ms| - 1].ToolResultMessage?
  }

  predicate EndsInResponses(cs: seq<Content>) {
    cs != [] && IsFunctionResponseContent(cs[|cs| - 1])
  }

  lemma ResponseContentsOfAppend(cs: seq<Content>, c: Content)
    ensures ResponseContents(cs + [c])
            == if IsFunctionResponseContent(c) then ResponseContents(cs) + [c] else ResponseContents(cs)
  {
    assert (cs + [c])[..|cs|] == cs;
  }

  lemma GroupedCarries(cs: seq<Content>, runs: seq<seq<Message>>, c: Content, part: Part, m: Message)
    requires CarriesAll(cs + [c], runs)
    requires m.ToolResultMessage? && part.ResponsePart? && part.content == m.content && part.isError == m.isError
    ensures runs != []
    ensures CarriesAll(cs + [Content(User, c.parts + [part])], runs[|runs| - 1 := runs[|runs| - 1] + [m]])
  {
    var k := |runs| - 1;
    assert (cs + [c])[k] == c && Carries(c, runs[k]);
    assert forall i :: 0 <= i < k ==> (cs + [c])[i] == cs[i];
  }

  lemma GroupedResponse(cs: seq<Content>, runs: seq<seq<Message>>, part: Part, m: Message)
    requires EndsInResponses(cs) && CarriesAll(ResponseContents(cs), runs)
    requires m.ToolResultMessage? && part.ResponsePart? && part.content == m.content && part.isError == m.isError
    ensures runs != []
    ensures var n := |cs|;
            var k := |runs|;
            CarriesAll(ResponseContents(cs[n - 1 := Content(User, cs[n - 1].parts + [part])]),
                       runs[k - 1 := runs[k - 1] + [m]])
  {
    hide ResponseContents, CarriesAll;
    var n := |cs|;
    var rest := cs[..n - 1];
    var grouped := Content(User, cs[n - 1].parts + [part]);
    ResponseContentsOfAppend(rest, cs[n - 1]);
    ResponseContentsOfAppend(rest, grouped);
    assert cs == rest + [cs[n - 1]];
    assert cs[n - 1 := grouped] == rest + [grouped];
    GroupedCarries(ResponseContents(rest), runs, cs[n - 1], part, m);
  }

  lemma NoContents()
    ensures CarriesAll(ResponseContents([]), [])
  {
  }

  lemma OneMoreCarried(cs: seq<Content>, runs: seq<seq<Message>>, c: Content, run: seq<Message>)
    requires CarriesAll(cs, runs) && Carries(c, run)
    ensures CarriesAll(cs + [c], runs + [run])
  {
    hide Carries;
  }

  lemma NewRun(cs: seq<Content>, runs: seq<seq<Message>>, part: Part, m: Message)
    requires CarriesAll(ResponseContents(cs), runs)
    requires m.ToolResultMessage? && part.ResponsePart? && part.content == m.content && part.isError == m.isError
    ensures CarriesAll(ResponseContents(cs + [Content(User, [part])]), runs + [[m]])
  {
    hide ResponseContents, CarriesAll;
    ResponseContentsOfAppend(cs, Content(User, [part]));
    OneMoreCarried(ResponseContents(cs), runs, Content(User, [part]), [m]);
  }

  // One message keeps the responses in step with the runs.
  lemma MessageKeepsRuns(g: Mapping, runs: seq<seq<Message>>, m: Message, joins: bool)
    requires CarriesAll(ResponseContents(g.contents), runs) && (joins <==> EndsInResponses(g.contents))
    ensures CarriesAll(ResponseContents(MapStep(g, m).contents), NextRuns(runs, m, joins))
    ensures m.ToolResultMessage? <==> EndsInResponses(MapStep(g, m).contents)
  {
    hide ResponseContents, Learn, CarriesAll, TurnParts;
    match m {
      case UserMessage(text) =>
        ResponseContentsOfAppend(g.contents, Content(User, [TextPart(text)]));
      case AssistantMessage(said, calls, state) =>
        ResponseContentsOfAppend(g.contents, Content(Model, TurnParts(said, calls, state)));
      case ToolResultMessage(id, content, isError) =>
        var part := ResponsePart(Resolve(g.names, id), content, isError);
        if joins {
          GroupedResponse(g.contents, runs, part, m);
        } else {
          NewRun(g.contents, runs, part, m);
        }
    }
  }

  // Each maximal run of results becomes one content, with its responses in order.
  lemma {:induction false} RunsBecomeContents(ms: seq<Message>)
    ensures CarriesAll(ResponseContents(Map(ms).contents), Runs(ms))
    ensures EndsInResults(ms) <==> EndsInResponses(Map(ms).contents)
  {
    hide ResponseContents, CarriesAll, MapStep, NextRuns;
    if ms == [] {
      NoContents();
    } else {
      var n := |ms| - 1;
      RunsBecomeContents(ms[..n]);
      MessageKeepsRuns(Map(ms[..n]), Runs(ms[..n]), ms[n], EndsInResults(ms[..n]));
    }
  }

  // --- every message is said, in order -------------------------------------------------

  // A turn that is not replayed: its text first, when there is one, then a signed part per
  // call, in order, with the call's name and arguments.
  predicate ArePartsOf(parts: seq<Part>, said: Option<string>, calls: seq<ToolCall>) {
    var texts := if said.Some? && said.value != "" then 1 else 0;
    && |parts| == texts + |calls|
    && (texts == 1 ==> parts[0] == TextPart(said.value))
    && forall i :: 0 <= i < |calls| ==> parts[texts + i] == CallPart(calls[i].name, calls[i].args, true)
  }

  // What a message other than a result becomes.
  predicate IsContentOf(c: Content, m: Message) {
    match m
    case UserMessage(text) => c == Content(User, [TextPart(text)])
    case AssistantMessage(said, calls, state) =>
      && c.role == Model
      && if state.Some? && state.value.provider == "google"
         then
           && |c.parts| == |state.value.payload|
           && forall i :: 0 <= i < |c.parts| ==> c.parts[i] == ReplayedPart(state.value.payload[i])
         else ArePartsOf(c.parts, said, calls)
    case ToolResultMessage(_, _, _) => false
  }

  // The history in pieces: each maximal run of results, and each other message by itself.
  function Pieces(ms: seq<Message>): seq<seq<Message>> {
    if ms == [] then [] else
      var n := |ms| - 1;
      var before := Pieces(ms[..n]);
      if ms[n].ToolResultMessage? && EndsInResults(ms[..n]) && before != []
      then before[|before| - 1 := before[|before| - 1] + [ms[n]]]
      else before + [[ms[n]]]
  }

  predicate IsPiece(c: Content, piece: seq<Message>) {
    && piece != []
    && if piece[0].ToolResultMessage? then c.role == User && Carries(c, piece)
       else |piece| == 1 && IsContentOf(c, piece[0])
  }

  predicate ArePieces(cs: seq<Content>, pieces: seq<seq<Message>>) {
    |cs| == |pieces| && forall i :: 0 <= i < |cs| ==> IsPiece(cs[i], pieces[i])
  }

  lemma {:induction false} CallPartsAre(calls: seq<ToolCall>)
    ensures |CallParts(calls)| == |calls|
    ensures forall i :: 0 <= i < |calls| ==> CallParts(calls)[i] == CallPart(calls[i].name, calls[i].args, true)
  {
    if calls != [] {
      var n := |calls| - 1;
      CallPartsAre(calls[..n]);
      assert forall i :: 0 <= i < n ==> calls[..n][i] == calls[i];
    }
  }

  lemma TurnIsSaid(said: Option<string>, calls: seq<ToolCall>, state: Option<ProviderState>)
    ensures IsContentOf(Content(Model, TurnParts(said, calls, state)), AssistantMessage(said, calls, state))
  {
    hide CallParts;
    CallPartsAre(calls);
  }

  lemma PieceGrows(cs: seq<Content>, pieces: seq<seq<Message>>, m: Message, name: string)
    requires ArePieces(cs, pieces) && m.ToolResultMessage? && EndsInResponses(cs)
    ensures var n := |cs| - 1;
            var part := ResponsePart(name, m.content, m.isError);
            ArePieces(cs[n := Content(User, cs[n].parts + [part])], pieces[n := pieces[n] + [m]])
  {
    var n := |cs| - 1;
    assert IsPiece(cs[n], pieces[n]);
  }

  lemma PieceAdded(cs: seq<Content>, pieces: seq<seq<Message>>, c: Content, m: Message)
    requires ArePieces(cs, pieces) && IsPiece(c, [m])
    ensures ArePieces(cs + [c], pieces + [[m]])
  {
    hide IsPiece;
  }

  // The wire is the history, piece by piece: each run of results is one content with its
  // responses in order, and each other message is one content that says just what it says.
  lemma {:induction false} PiecesBecomeContents(ms: seq<Message>)
    ensures ArePieces(Map(ms).contents, Pieces(ms))
  {
    hide Carries, IsContentOf, ArePieces, Learn, TurnParts, ResponseContents, CarriesAll;
    if ms == [] {
      NoPieces();
    } else {
      var n := |ms| - 1;
      var g, m := Map(ms[..n]), ms[n];
      PiecesBecomeContents(ms[..n]);
      RunsBecomeContents(ms[..n]);
      SamePieces(g.contents, Pieces(ms[..n]));
      match m {
        case UserMessage(text) =>
          UserIsSaid(text);
          PieceAdded(g.contents, Pieces(ms[..n]), Content(User, [TextPart(text)]), m);
        case AssistantMessage(said, calls, state) =>
          TurnIsSaid(said, calls, state);
          PieceAdded(g.contents, Pieces(ms[..n]), Content(Model, TurnParts(said, calls, state)), m);
        case ToolResultMessage(id, content, isError) =>
          var name := Resolve(g.names, id);
          if EndsInResponses(g.contents) {
            PieceGrows(g.contents, Pieces(ms[..n]), m, name);
          } else {
            ResultIsSaid(name, m);
            PieceAdded(g.contents, Pieces(ms[..n]), Content(User, [ResponsePart(name, content, isError)]), m);
          }
      }
    }
  }

  lemma NoPieces()
    ensures ArePieces([], [])
  {
  }

  lemma SamePieces(cs: seq<Content>, pieces: seq<seq<Message>>)
    requires ArePieces(cs, pieces)
    ensures |cs| == |pieces|
  {
  }

  lemma UserIsSaid(text: string)
    ensures IsContentOf(Content(User, [TextPart(text)]), UserMessage(text))
  {
  }

  lemma ResultIsSaid(name: string, m: Message)
    requires m.ToolResultMessage?
    ensures Carries(Content(User, [ResponsePart(name, m.content, m.isError)]), [m])
  {
  }

  // --- responses name the call they answer ---------------------------------------------

  // The names the responses carry, in order.
  function ResponseNames(ms: seq<Message>): seq<string> {
    if ms == [] then [] else
      var n := |ms| - 1;
      ResponseNames(ms[..n]) + match ms[n]
                               case ToolResultMessage(id, _, _) => [Resolve(Map(ms[..n]).names, id)]
                               case _ => []
  }

  function PartNames(ps: seq<Part>): seq<string> {
    if ps == [] then [] else
      var p := ps[|ps| - 1];
      PartNames(ps[..|ps| - 1]) + if p.ResponsePart? then [p.name] else []
  }

  function WireNames(cs: seq<Content>): seq<string> {
    if cs == [] then [] else WireNames(cs[..|cs| - 1]) + PartNames(cs[|cs| - 1].parts)
  }

  function OwnNames(calls: seq<ToolCall>): (names: seq<string>)
    ensures |names| == |calls|
    ensures forall i :: 0 <= i < |names| ==> names[i] == calls[i].name
  {
    seq(|calls|, i requires 0 <= i < |calls| => calls[i].name)
  }

  // Calls of one turn that share an id share their name.
  predicate Unambiguous(calls: seq<ToolCall>) {
    forall i, j :: 0 <= i < j < |calls| && calls[i].id == calls[j].id ==> calls[i].name == calls[j].name
  }

  predicate AllUnambiguous(ms: seq<Message>) {
    forall i :: 0 <= i < |ms| && ms[i].AssistantMessage? ==> Unambiguous(ms[i].calls)
  }

  // The map gives a call its own name exactly when no later call of the turn has
  // taken its id for another name.
  lemma {:induction false} LearnedName(names: map<string, string>, calls: seq<ToolCall>, i: nat)
    requires i < |calls|
    ensures var learned := Learn(names, calls);
            calls[i].id in learned
            && exists j :: i <= j < |calls| && calls[j].id == calls[i].id && learned[calls[i].id] == calls[j].name
  {
    var n := |calls| - 1;
    if calls[n].id == calls[i].id {
      assert Learn(names, calls)[calls[i].id] == calls[n].name;
    } else {
      LearnedName(names, calls[..n], i);
      var j :| i <= j < n && calls[..n][j].id == calls[i].id
               && Learn(names, calls[..n])[calls[i].id] == calls[..n][j].name;
      assert calls[j].id == calls[i].id;
    }
  }

  // Every call of a turn is known by its own name exactly when the turn is unambiguous.
  lemma LearnedNamesExactly(names: map<string, string>, calls: seq<ToolCall>)
    ensures (forall i :: 0 <= i < |calls| ==> Resolve(Learn(names, calls), calls[i].id) == calls[i].name)
            <==> Unambiguous(calls)
  {
    forall i | 0 <= i < |calls| {
      LearnedName(names, calls, i);
    }
  }

  // The turn whose results are being given, and how many of them have been.
  ghost predicate InTurn(ms: seq<Message>, owed: seq<ToolCall>, names: map<string, string>) {
    exists t, before, k :: 0 <= t < |ms| && ms[t].AssistantMessage? && 0 <= k <= |ms[t].calls|
                           && owed == ms[t].calls[k..] && names == Learn(before, ms[t].calls)
  }

  lemma {:induction false} OwedTurn(ms: seq<Message>)
    requires Stands(ms).Owing?
    ensures InTurn(ms, Stands(ms).calls, Map(ms).names)
  {
    var n := |ms| - 1;
    match ms[n] {
      case AssistantMessage(_, calls, _) =>
        assert calls[0..] == calls;
        assert InTurn(ms, calls, Learn(Map(ms[..n]).names, calls));
      case ToolResultMessage(_, _, _) =>
        OwedTurn(ms[..n]);
        var t, before, k :| 0 <= t < n && ms[..n][t].AssistantMessage? && 0 <= k <= |ms[..n][t].calls|
                           && Stands(ms[..n]).calls == ms[..n][t].calls[k..]
                           && Map(ms[..n]).names == Learn(before, ms[..n][t].calls);
        assert ms[t] == ms[..n][t];
        assert ms[t].calls[k..][1..] == ms[t].calls[k + 1..];
        assert Stands(ms).calls == ms[t].calls[k + 1..];
    }
  }

  lemma OwedCallIsNamed(ms: seq<Message>)
    requires Stands(ms).Owing? && Stands(ms).calls != [] && AllUnambiguous(ms)
    ensures Resolve(Map(ms).names, Stands(ms).calls[0].id) == Stands(ms).calls[0].name
  {
    hide Stands, Map, Learn;
    OwedTurn(ms);
    var t, before, k :| 0 <= t < |ms| && ms[t].AssistantMessage? && 0 <= k <= |ms[t].calls|
                        && Stands(ms).calls == ms[t].calls[k..] && Map(ms).names == Learn(before, ms[t].calls);
    LearnedNamesExactly(before, ms[t].calls);
    assert Stands(ms).calls[0] == ms[t].calls[k];
  }

  // If every turn is unambiguous, each response names the call it answers.
  lemma {:induction false} ResponsesNameTheirCalls(ms: seq<Message>)
    requires Stands(ms) != Broken && AllUnambiguous(ms)
    ensures ResponseNames(ms) == OwnNames(AnsweredCalls(ms))
  {
    if ms != [] {
      var n := |ms| - 1;
      ResponsesNameTheirCalls(ms[..n]);
      if ms[n].ToolResultMessage? {
        OwedCallIsNamed(ms[..n]);
        var owed := Stands(ms[..n]).calls;
        assert OwnNames(AnsweredCalls(ms)) == OwnNames(AnsweredCalls(ms[..n])) + [owed[0].name];
      }
    }
  }

  lemma WireNamesOfAppend(cs: seq<Content>, c: Content)
    ensures WireNames(cs + [c]) == WireNames(cs) + PartNames(c.parts)
  {
    assert (cs + [c])[..|cs|] == cs;
  }

  lemma PartNamesOfAppend(ps: seq<Part>, part: Part)
    requires part.ResponsePart?
    ensures PartNames(ps + [part]) == PartNames(ps) + [part.name]
  {
    assert (ps + [part])[..|ps|] == ps;
  }

  lemma PartNamesOfOne(part: Part)
    requires part.ResponsePart?
    ensures PartNames([part]) == [part.name]
  {
    PartNamesOfAppend([], part);
    assert [] + [part] == [part];
  }

  lemma WireNamesOfGrouping(cs: seq<Content>, part: Part)
    requires cs != [] && part.ResponsePart?
    ensures WireNames(cs[|cs| - 1 := Content(User, cs[|cs| - 1].parts + [part])]) == WireNames(cs) + [part.name]
  {
    hide WireNames, PartNames;
    var n := |cs|;
    var rest, grouped := cs[..n - 1], Content(User, cs[n - 1].parts + [part]);
    WireNamesOfAppend(rest, cs[n - 1]);
    WireNamesOfAppend(rest, grouped);
    PartNamesOfAppend(cs[n - 1].parts, part);
    assert cs == rest + [cs[n - 1]];
    assert cs[n - 1 := grouped] == rest + [grouped];
  }

  // The wire's response parts carry exactly those names, in that order.
  lemma {:induction false} WireCarriesTheNames(ms: seq<Message>)
    ensures WireNames(Map(ms).contents) == ResponseNames(ms)
  {
    if ms != [] {
      hide WireNames, PartNames, Learn, TurnParts;
      var n := |ms| - 1;
      WireCarriesTheNames(ms[..n]);
      var cs := Map(ms[..n]).contents;
      match ms[n] {
        case UserMessage(text) =>
          WireNamesOfAppend(cs, Content(User, [TextPart(text)]));
          NoResponses([TextPart(text)]);
        case AssistantMessage(said, calls, state) =>
          WireNamesOfAppend(cs, Content(Model, TurnParts(said, calls, state)));
          NoResponsesInTurn(said, calls, state);
        case ToolResultMessage(id, content, isError) =>
          var part := ResponsePart(Resolve(Map(ms[..n]).names, id), content, isError);
          if EndsInResponses(cs) {
            WireNamesOfGrouping(cs, part);
          } else {
            WireNamesOfAppend(cs, Content(User, [part]));
            PartNamesOfOne(part);
          }
      }
    }
  }

  lemma {:induction false} NoResponses(ps: seq<Part>)
    requires forall p :: p in ps ==> !p.ResponsePart?
    ensures PartNames(ps) == []
  {
    if ps != [] {
      NoResponses(ps[..|ps| - 1]);
    }
  }

  lemma {:induction false} CallPartsAreCalls(calls: seq<ToolCall>)
    ensures forall p :: p in CallParts(calls) ==> p.CallPart?
  {
    if calls != [] {
      CallPartsAreCalls(calls[..|calls| - 1]);
    }
  }

  lemma NoResponsesInTurn(said: Option<string>, calls: seq<ToolCall>, state: Option<ProviderState>)
    ensures PartNames(TurnParts(said, calls, state)) == []
  {
    CallPartsAreCalls(calls);
    NoResponses(TurnParts(said, calls, state));
  }

  predicate AreResultsOf(results: seq<Message>, calls: seq<ToolCall>) {
    |results| == |calls|
    && forall i :: 0 <= i < |results| ==> results[i].ToolResultMessage? && results[i].id == calls[i].id
  }

  function NamesGiven(names: map<string, string>, calls: seq<ToolCall>): (given: seq<string>)
    ensures |given| == |calls|
    ensures forall i :: 0 <= i < |given| ==> given[i] == Resolve(names, calls[i].id)
  {
    seq(|calls|, i requires 0 <= i < |calls| => Resolve(names, calls[i].id))
  }

  lemma OneMoreResult(ms: seq<Message>, m: Message)
    requires m.ToolResultMessage?
    ensures Map(ms + [m]).names == Map(ms).names
    ensures ResponseNames(ms + [m]) == ResponseNames(ms) + [Resolve(Map(ms).names, m.id)]
  {
    hide Resolve, Learn;
    assert (ms + [m])[..|ms|] == ms;
  }

  lemma {:induction false} ResultsAreResolved(ms: seq<Message>, results: seq<Message>, calls: seq<ToolCall>)
    requires AreResultsOf(results, calls)
    ensures Map(ms + results).names == Map(ms).names
    ensures ResponseNames(ms + results) == ResponseNames(ms) + NamesGiven(Map(ms).names, calls)
  {
    hide Map, ResponseNames, Resolve;
    if results == [] {
      assert ms + results == ms;
    } else {
      var n := |results| - 1;
      assert ms + results == (ms + results[..n]) + [results[n]];
      ResultsAreResolved(ms, results[..n], calls[..n]);
      OneMoreResult(ms + results[..n], results[n]);
      assert NamesGiven(Map(ms).names, calls)
          == NamesGiven(Map(ms).names, calls[..n]) + [Resolve(Map(ms).names, calls[n].id)];
    }
  }

  lemma TurnTeaches(ms: seq<Message>, turn: Message)
    requires turn.AssistantMessage?
    ensures Map(ms + [turn]).names == Learn(Map(ms).names, turn.calls)
    ensures ResponseNames(ms + [turn]) == ResponseNames(ms)
  {
    hide Learn;
    assert (ms + [turn])[..|ms|] == ms;
  }

  // One turn and all its results, after any history: the responses carry their own
  // calls' names exactly when the turn is unambiguous.
  lemma TurnIsNamedExactly(ms: seq<Message>, turn: Message, results: seq<Message>)
    requires turn.AssistantMessage? && AreResultsOf(results, turn.calls)
    ensures (ResponseNames(ms + [turn] + results) == ResponseNames(ms) + OwnNames(turn.calls))
            <==> Unambiguous(turn.calls)
  {
    hide Map, ResponseNames, Learn, Unambiguous;
    TurnTeaches(ms, turn);
    ResultsAreResolved(ms + [turn], results, turn.calls);
    LearnedNamesExactly(Map(ms).names, turn.calls);
    var given, own := NamesGiven(Learn(Map(ms).names, turn.calls), turn.calls), OwnNames(turn.calls);
    var before := ResponseNames(ms);
    assert given == own <==> before + given == before + own by {
      assert (before + given)[|before|..] == given && (before + own)[|before|..] == own;
    }
    if given == own {
      assert forall i :: 0 <= i < |turn.calls| ==> given[i] == own[i];
    }
  }

  // --- minted ids --------------------------------------------------------------------

  datatype RawCall = RawCall(id: Option<string>, name: string, args: string)

  function MintedId(raw: RawCall, position: nat): string {
    if raw.id.Some? && raw.id.value != "" then raw.id.value else "call_" + Decimal(position)
  }

  function Mint(raws: seq<RawCall>): seq<ToolCall> {
    if raws == [] then [] else
      var n := |raws| - 1;
      Mint(raws[..n]) + [ToolCall(MintedId(raws[n], n + 1), raws[n].name, raws[n].args)]
  }

  method NormalizeCalls(raws: seq<RawCall>) returns (calls: seq<ToolCall>)
    ensures calls == Mint(raws)
    ensures |calls| == |raws|
  {
    calls := [];
    for i := 0 to |raws|
      invariant |calls| == i && calls == Mint(raws[..i])
    {
      assert raws[..i + 1][..i] == raws[..i];
      var raw := raws[i];
      var id := if raw.id.Some? && raw.id.value != "" then raw.id.value else "call_" + Decimal(|calls| + 1);
      calls := calls + [ToolCall(id, raw.name, raw.args)];
    }
    assert raws[..|raws|] == raws;
  }

  lemma {:induction false} MintedCall(raws: seq<RawCall>, i: nat)
    requires i < |raws|
    ensures |Mint(raws)| == |raws| && Mint(raws)[i] == ToolCall(MintedId(raws[i], i + 1), raws[i].name, raws[i].args)
  {
    var n := |raws| - 1;
    if i < n {
      MintedCall(raws[..n], i);
    } else if n > 0 {
      MintedCall(raws[..n], 0);
    }
  }

  // When the provider gives no id at all, the minted ids of a turn are distinct and
  // the turn is unambiguous; the same ids recur in every such turn.
  lemma MintedTurnsAreUnambiguous(raws: seq<RawCall>)
    requires forall r :: r in raws ==> r.id.None? || r.id.value == ""
    ensures |Mint(raws)| == |raws|
    ensures forall i, j :: 0 <= i < j < |raws| ==> Mint(raws)[i].id != Mint(raws)[j].id
    ensures Unambiguous(Mint(raws))
  {
    if raws != [] {
      MintedCall(raws, 0);
    }
    forall i, j | 0 <= i < j < |raws|
      ensures Mint(raws)[i].id != Mint(raws)[j].id
    {
      MintedCall(raws, i);
      MintedCall(raws, j);
      if Mint(raws)[i].id == Mint(raws)[j].id {
        assert ("call_" + Decimal(i + 1))[5..] == ("call_" + Decimal(j + 1))[5..];
        DecimalInjective(i + 1, j + 1);
      }
    }
  }

  // A minted id can meet one the provider gave.  The turn is then ambiguous, and after
  // any history both of its results reach the wire under the second call's name.
  lemma MintedIdCanCollide(ms: seq<Message>, first: ToolCall, second: ToolCall, results: seq<Message>)
    requires [first, second] == Mint([RawCall(Some("call_2"), "move", ""), RawCall(None, "feed", "")])
    requires AreResultsOf(results, [first, second])
    ensures first.name == "move" && second.name == "feed" && !Unambiguous([first, second])
    ensures var h := ms + [AssistantMessage(None, [first, second], None)] + results;
            WireNames(Map(h).contents) == ResponseNames(ms) + ["feed", "feed"]
  {
    hide Map, ResponseNames, WireNames;
    var raws := [RawCall(Some("call_2"), "move", ""), RawCall(None, "feed", "")];
    var calls := [first, second];
    MintedCall(raws, 0);
    MintedCall(raws, 1);
    assert Decimal(2) == "2";
    assert calls[0].id == calls[1].id;
    var turn := AssistantMessage(None, calls, None);
    TurnTeaches(ms, turn);
    ResultsAreResolved(ms + [turn], results, calls);
    LastTaught(Map(ms).names, first, second);
    assert NamesGiven(Learn(Map(ms).names, calls), calls) == ["feed", "feed"];
    WireCarriesTheNames(ms + [turn] + results);
  }

  lemma LastTaught(names: map<string, string>, first: ToolCall, second: ToolCall)
    requires first.id == second.id
    ensures Resolve(Learn(names, [first, second]), first.id) == second.name
  {
    assert [first, second][..1] == [first];
  }

  // The collision does happen.
  lemma MintedCollision()
    ensures Mint([RawCall(Some("call_2"), "move", ""), RawCall(None, "feed", "")])
            == [ToolCall("call_2", "move", ""), ToolCall("call_2", "feed", "")]
  {
    var raws := [RawCall(Some("call_2"), "move", ""), RawCall(None, "feed", "")];
    MintedCall(raws, 0);
    MintedCall(raws, 1);
    assert Decimal(2) == "2" && "call_" + "2" == "call_2";
    assert Mint(raws) == [Mint(raws)[0], Mint(raws)[1]];
  }
}
