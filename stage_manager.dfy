/**
 * The render-stage manager: it admits stages of known kinds until setup,
 * orders them by a fixed stage order, binds each stage's input pipes and
 * shader inputs to what earlier stages produced, and records what each stage
 * produces. Stages are values here; every call the manager makes into a stage,
 * a texture or a uniform block is an entry of an append-only event log.
 */
module StageManagement {

  /** The fixed order stages run in; only stages of these kinds are admitted. */
  const StageOrder: seq<string> := [
    "GBufferStage", "PSSMShadowStage", "DownscaleZStage", "ReprojectStage",
    "FlagUsedCellsStage", "CollectUsedCellsStage", "CullLightsStage", "ApplyLightsStage",
    "PSSMStage", "ScatteringStage", "AmbientStage", "SSLRStage", "SMAAStage",
    "FinalStage", "UpdatePreviousPipesStage"]

  /** The prefix naming a pipe of the previous frame. */
  const PreviousPrefix: string := "PreviousFrame::"

  /** The id of the stage that copies the current pipes into the previous-frame textures. */
  const PreviousStageId: string := "UpdatePreviousPipesStage"

  /** A pipe, input, define value or texture handed between stages. */
  datatype Resource = Texture(name: string) | Data(id: int)

  /**
   * What the manager asks of a stage: its kind, its name, the pipes and inputs
   * it consumes, and the pipes, defines and inputs it produces, each in the
   * order the stage lists them.
   */
  datatype Stage = Stage(
    id: string,
    name: string,
    inputPipes: seq<string>,
    requiredInputs: seq<string>,
    producedPipes: seq<(string, Resource)>,
    producedDefines: seq<(string, Resource)>,
    producedInputs: seq<(string, Resource)>)

  /** The stage appended after all others when some previous-frame pipe was requested. */
  const PreviousStage: Stage := Stage(PreviousStageId, PreviousStageId, [], [], [], [], [])

  /** Everything the manager reports or asks of others, in order. */
  datatype Event =
    | UnknownStage(stage: string)
    | StagesAlreadyCreated
    | StageCreated(stage: string)
    | TextureCreated(pipe: string)
    | ShaderInput(stage: string, input: string, value: Resource)
    | UboBound(ubo: string, stage: string)
    | MissingPipe(pipe: string, stage: string)
    | MissingInput(input: string, stage: string)
    | DefineOverridden(stage: string, define: string)
    | InputOverridden(stage: string, input: string)
    | MissingPreviousPipe(pipe: string)
    | Transfer(source: Resource, target: Resource)

  /** The manager's tables: inputs, pipes, uniform blocks, previous-frame pipes (in request order), defines, and the log. */
  datatype Tables = Tables(
    inputs: map<string, Resource>,
    pipes: map<string, Resource>,
    ubos: map<string, Resource>,
    previous: seq<string>,
    defines: map<string, Resource>,
    log: seq<Event>)

  /** The texture kept for a previous-frame pipe. */
  function PreviousTexture(pipe: string): Resource
  {
    Texture("Prev-" + pipe)
  }

  // ----- names and ranks -----

  /** The position of a stage kind in the stage order; kinds outside it rank last. */
  function Rank(id: string): (r: nat)
    ensures r <= |StageOrder|
    ensures r < |StageOrder| <==> id in StageOrder
    ensures r < |StageOrder| ==> StageOrder[r] == id && forall k :: 0 <= k < r ==> StageOrder[k] != id
  {
    IndexIn(StageOrder, id)
  }

  /** The first index of `x` in `s`, or `|s|`. */
  function IndexIn(s: seq<string>, x: string): (r: nat)
    ensures r <= |s|
    ensures r < |s| <==> x in s
    ensures r < |s| ==> s[r] == x && forall k :: 0 <= k < r ==> s[k] != x
  {
    if s == [] then 0
    else if s[0] == x then 0
    else 1 + IndexIn(s[1..], x)
  }

  predicate StartsWith(s: string, prefix: string)
  {
    |prefix| <= |s| && s[..|prefix|] == prefix
  }

  /** `s` contains the separator `::`. */
  predicate HasSep(s: string)
  {
    exists i :: 0 <= i < |s| - 1 && s[i] == ':' && s[i + 1] == ':'
  }

  /**
   * The last piece of splitting `s` on `::`, scanning from the left and
   * cutting at each separator not overlapping the previous one.
   */
  function SplitLast(s: string): (r: string)
    ensures |r| <= |s| && r == s[|s| - |r|..]
    ensures !HasSep(r)
    decreases |s|
  {
    if |s| >= 2 && s[0] == ':' && s[1] == ':' then
      var r := SplitLast(s[2..]);
      assert s[2..][|s[2..]| - |r|..] == s[|s| - |r|..];
      r
    else if HasSep(s) then
      var r := SplitLast(s[1..]);
      assert s[1..][|s[1..]| - |r|..] == s[|s| - |r|..];
      r
    else s
  }

  /** Characters without a colon in front of a separated rest do not change the last piece. */
  lemma {:induction false} SplitLastSkip(a: string, rest: string)
    requires forall i :: 0 <= i < |a| ==> a[i] != ':'
    requires HasSep(rest)
    ensures SplitLast(a + rest) == SplitLast(rest)
    decreases |a|
  {
    if a == [] {
      assert a + rest == rest;
    } else {
      SplitLastDrop(a, rest);
      SplitLastSkip(a[1..], rest);
    }
  }

  /** A leading character other than a colon is dropped when a separator follows. */
  lemma SplitLastDrop(a: string, rest: string)
    requires a != [] && a[0] != ':' && HasSep(rest)
    ensures SplitLast(a + rest) == SplitLast(a[1..] + rest)
  {
    SepAfter(a, rest);
    SplitLastTail(a + rest);
    TailOfConcat(a, rest);
  }

  /** Dropping the first character of a concatenation drops it from the first part. */
  lemma TailOfConcat(a: string, rest: string)
    requires a != []
    ensures (a + rest)[1..] == a[1..] + rest
  {
  }

  /** A separator in the rest is a separator of the whole. */
  lemma SepAfter(a: string, rest: string)
    requires HasSep(rest)
    ensures HasSep(a + rest)
  {
    var i :| 0 <= i < |rest| - 1 && rest[i] == ':' && rest[i + 1] == ':';
    assert (a + rest)[|a| + i] == ':' && (a + rest)[|a| + i + 1] == ':';
  }

  /** Splitting a string with a separator and no leading colon ignores its first character. */
  lemma SplitLastTail(s: string)
    requires s != [] && s[0] != ':' && HasSep(s)
    ensures SplitLast(s) == SplitLast(s[1..])
  {
  }

  /** A string without a separator is its own last piece. */
  lemma SplitLastWhole(x: string)
    requires !HasSep(x)
    ensures SplitLast(x) == x
  {
    if |x| >= 2 && x[0] == ':' && x[1] == ':' {
      assert HasSep(x);
    }
  }

  /** The previous-frame pipe `PreviousFrame::X`, for X without a separator, names the pipe X. */
  lemma PreviousPipeName(x: string)
    requires !HasSep(x)
    ensures StartsWith(PreviousPrefix + x, PreviousPrefix)
    ensures SplitLast(PreviousPrefix + x) == x
  {
    var a := "PreviousFrame";
    var rest := "::" + x;
    assert PreviousPrefix == a + "::";
    assert PreviousPrefix + x == a + rest;
    assert (PreviousPrefix + x)[..|PreviousPrefix|] == PreviousPrefix;
    assert rest[0] == ':' && rest[1] == ':';
    assert HasSep(rest);
    SplitLastSkip(a, rest);
    assert rest[2..] == x;
    assert SplitLast(rest) == SplitLast(x);
    SplitLastWhole(x);
  }

  // ----- ordering -----

  /** A stage's position in the stage order. */
  function StageRank(st: Stage): nat
  {
    Rank(st.id)
  }

  predicate SortedBy(key: Stage -> nat, s: seq<Stage>)
  {
    forall i, j :: 0 <= i < j < |s| ==> key(s[i]) <= key(s[j])
  }

  /** The stages whose key is `k`, in their order in `s`. */
  function OfKey(key: Stage -> nat, k: nat, s: seq<Stage>): seq<Stage>
  {
    if s == [] then []
    else (if key(s[0]) == k then [s[0]] else []) + OfKey(key, k, s[1..])
  }

  /** Inserts `x` after every stage whose key is at most its own. */
  function Insert(key: Stage -> nat, x: Stage, s: seq<Stage>): seq<Stage>
  {
    if s == [] then [x]
    else if key(x) < key(s[0]) then [x] + s
    else [s[0]] + Insert(key, x, s[1..])
  }

  /** Python's stable `list.sort` with a key: insertion from the left, after every equal key. */
  function SortBy(key: Stage -> nat, s: seq<Stage>): seq<Stage>
  {
    if s == [] then [] else Insert(key, s[|s| - 1], SortBy(key, s[..|s| - 1]))
  }

  /** The order `setup` puts the stages in. */
  function SortByRank(s: seq<Stage>): seq<Stage>
  {
    SortBy(StageRank, s)
  }

  lemma {:induction false} InsertMultiset(key: Stage -> nat, x: Stage, s: seq<Stage>)
    ensures multiset(Insert(key, x, s)) == multiset(s) + multiset{x}
    decreases |s|
  {
    if s != [] && key(x) >= key(s[0]) {
      InsertMultiset(key, x, s[1..]);
      assert s == [s[0]] + s[1..];
    }
  }

  lemma {:induction false} InsertSorted(key: Stage -> nat, x: Stage, s: seq<Stage>)
    requires SortedBy(key, s)
    ensures SortedBy(key, Insert(key, x, s))
    decreases |s|
  {
    if s != [] && key(x) >= key(s[0]) {
      var t := Insert(key, x, s[1..]);
      InsertSorted(key, x, s[1..]);
      InsertMultiset(key, x, s[1..]);
      forall j | 0 <= j < |t|
        ensures key(s[0]) <= key(t[j])
      {
        assert t[j] in multiset(t);
        if t[j] != x {
          var m :| 0 <= m < |s[1..]| && s[1..][m] == t[j];
          assert s[m + 1] == t[j];
        }
      }
    }
  }

  lemma {:induction false} OfKeyAppend(key: Stage -> nat, k: nat, a: seq<Stage>, b: seq<Stage>)
    ensures OfKey(key, k, a + b) == OfKey(key, k, a) + OfKey(key, k, b)
    decreases |a|
  {
    if a == [] {
      assert a + b == b;
    } else {
      var head := if key(a[0]) == k then [a[0]] else [];
      assert (a + b)[0] == a[0];
      assert (a + b)[1..] == a[1..] + b;
      assert OfKey(key, k, a + b) == head + OfKey(key, k, a[1..] + b);
      OfKeyAppend(key, k, a[1..], b);
      assert OfKey(key, k, a) == head + OfKey(key, k, a[1..]);
      assert head + (OfKey(key, k, a[1..]) + OfKey(key, k, b)) == (head + OfKey(key, k, a[1..])) + OfKey(key, k, b);
    }
  }

  lemma {:induction false} OfKeyAbove(key: Stage -> nat, k: nat, s: seq<Stage>)
    requires forall i :: 0 <= i < |s| ==> k < key(s[i])
    ensures OfKey(key, k, s) == []
    decreases |s|
  {
    if s != [] {
      OfKeyAbove(key, k, s[1..]);
    }
  }

  lemma OfKeySingle(key: Stage -> nat, k: nat, x: Stage)
    ensures OfKey(key, k, [x]) == if key(x) == k then [x] else []
  {
    assert [x][1..] == [];
  }

  lemma {:induction false} InsertOfKey(key: Stage -> nat, k: nat, x: Stage, s: seq<Stage>)
    requires SortedBy(key, s)
    ensures OfKey(key, k, Insert(key, x, s)) == OfKey(key, k, s) + (if key(x) == k then [x] else [])
    decreases |s|
  {
    OfKeySingle(key, k, x);
    if s == [] {
    } else if key(x) < key(s[0]) {
      OfKeyAppend(key, k, [x], s);
      if key(x) == k {
        OfKeyAbove(key, k, s);
      }
    } else {
      InsertOfKey(key, k, x, s[1..]);
      OfKeyAppend(key, k, [s[0]], Insert(key, x, s[1..]));
      OfKeyAppend(key, k, [s[0]], s[1..]);
      assert s == [s[0]] + s[1..];
      OfKeySingle(key, k, s[0]);
    }
  }

  /**
   * A keyed sort is stable: the result is ordered by key, a permutation of the
   * input, and keeps the stages of each key in their original order.
   */
  lemma {:induction false} SortByCorrect(key: Stage -> nat, s: seq<Stage>)
    ensures SortedBy(key, SortBy(key, s))
    ensures multiset(SortBy(key, s)) == multiset(s)
    ensures forall k: nat :: OfKey(key, k, SortBy(key, s)) == OfKey(key, k, s)
    decreases |s|
  {
    if s != [] {
      var init := s[..|s| - 1];
      var x := s[|s| - 1];
      SortByCorrect(key, init);
      InsertSorted(key, x, SortBy(key, init));
      InsertMultiset(key, x, SortBy(key, init));
      assert s == init + [x];
      forall k: nat
        ensures OfKey(key, k, SortBy(key, s)) == OfKey(key, k, s)
      {
        InsertOfKey(key, k, x, SortBy(key, init));
        OfKeyAppend(key, k, init, [x]);
        OfKeySingle(key, k, x);
      }
    }
  }

  /** Sorting admits no stage of a new kind. */
  lemma SortKeepsKinds(s: seq<Stage>)
    requires forall k :: 0 <= k < |s| ==> s[k].id in StageOrder
    ensures forall k :: 0 <= k < |SortByRank(s)| ==> SortByRank(s)[k].id in StageOrder
  {
    SortByCorrect(StageRank, s);
    var r := SortByRank(s);
    forall k | 0 <= k < |r|
      ensures r[k].id in StageOrder
    {
      assert r[k] in multiset(s);
    }
  }

  // ----- binding and registering, one step at a time -----

  /** One step of a stage's processing: binding one input pipe or input, or registering one produced item. */
  datatype Step =
    | BindPipe(pipe: string)
    | BindInput(input: string)
    | ProducePipe(pipeName: string, pipeData: Resource)
    | ProduceDefine(defineName: string, defineData: Resource)
    | ProduceInput(inputName: string, inputData: Resource)

  /** The effect of one step of the stage named `stage` on the tables. */
  function Apply(t: Tables, stage: string, step: Step): Tables
  {
    match step
    case BindPipe(pipe) =>
      if StartsWith(pipe, PreviousPrefix) then
        var n := SplitLast(pipe);
        var t1 := if n in t.previous then t else t.(previous := t.previous + [n], log := t.log + [TextureCreated(n)]);
        t1.(log := t1.log + [ShaderInput(stage, "Previous_" + n, PreviousTexture(n))])
      else if pipe !in t.pipes then t.(log := t.log + [MissingPipe(pipe, stage)])
      else t.(log := t.log + [ShaderInput(stage, pipe, t.pipes[pipe])])
    case BindInput(input) =>
      if input !in t.inputs && input !in t.ubos then t.(log := t.log + [MissingInput(input, stage)])
      else if input in t.inputs then t.(log := t.log + [ShaderInput(stage, input, t.inputs[input])])
      else t.(log := t.log + [UboBound(input, stage)])
    case ProducePipe(name, data) =>
      t.(pipes := t.pipes[name := data])
    case ProduceDefine(name, data) =>
      var log := if name in t.defines then t.log + [DefineOverridden(stage, name)] else t.log;
      t.(defines := t.defines[name := data], log := log)
    case ProduceInput(name, data) =>
      var log := if name in t.inputs then t.log + [InputOverridden(stage, name)] else t.log;
      t.(inputs := t.inputs[name := data], log := log)
  }

  /** The steps in order. */
  function Run(t: Tables, stage: string, steps: seq<Step>): Tables
  {
    if steps == [] then t else Apply(Run(t, stage, steps[..|steps| - 1]), stage, steps[|steps| - 1])
  }

  function PipeBindings(pipes: seq<string>): (r: seq<Step>)
    ensures |r| == |pipes| && forall k :: 0 <= k < |pipes| ==> r[k] == BindPipe(pipes[k])
  {
    seq(|pipes|, k requires 0 <= k < |pipes| => BindPipe(pipes[k]))
  }

  function InputBindings(inputs: seq<string>): (r: seq<Step>)
    ensures |r| == |inputs| && forall k :: 0 <= k < |inputs| ==> r[k] == BindInput(inputs[k])
  {
    seq(|inputs|, k requires 0 <= k < |inputs| => BindInput(inputs[k]))
  }

  function PipeRegistrations(items: seq<(string, Resource)>): (r: seq<Step>)
    ensures |r| == |items| && forall k :: 0 <= k < |items| ==> r[k] == ProducePipe(items[k].0, items[k].1)
  {
    seq(|items|, k requires 0 <= k < |items| => ProducePipe(items[k].0, items[k].1))
  }

  function DefineRegistrations(items: seq<(string, Resource)>): (r: seq<Step>)
    ensures |r| == |items| && forall k :: 0 <= k < |items| ==> r[k] == ProduceDefine(items[k].0, items[k].1)
  {
    seq(|items|, k requires 0 <= k < |items| => ProduceDefine(items[k].0, items[k].1))
  }

  function InputRegistrations(items: seq<(string, Resource)>): (r: seq<Step>)
    ensures |r| == |items| && forall k :: 0 <= k < |items| ==> r[k] == ProduceInput(items[k].0, items[k].1)
  {
    seq(|items|, k requires 0 <= k < |items| => ProduceInput(items[k].0, items[k].1))
  }

  /** One stage of `setup`: it is created, binds its pipes and inputs, then registers what it produces. */
  function ProcessStage(t: Tables, st: Stage): Tables
  {
    var t1 := t.(log := t.log + [StageCreated(st.name)]);
    var t2 := Run(t1, st.name, PipeBindings(st.inputPipes));
    var t3 := Run(t2, st.name, InputBindings(st.requiredInputs));
    var t4 := Run(t3, st.name, PipeRegistrations(st.producedPipes));
    var t5 := Run(t4, st.name, DefineRegistrations(st.producedDefines));
    Run(t5, st.name, InputRegistrations(st.producedInputs))
  }

  /** The stages in order. */
  function ProcessStages(t: Tables, stages: seq<Stage>): Tables
  {
    if stages == [] then t else ProcessStage(ProcessStages(t, stages[..|stages| - 1]), stages[|stages| - 1])
  }

  /** One transfer of the previous-pipes stage, or the error for a pipe never produced. */
  function TransferStep(t: Tables, pipe: string): Tables
  {
    if pipe !in t.pipes then t.(log := t.log + [MissingPreviousPipe(pipe)])
    else t.(log := t.log + [Transfer(t.pipes[pipe], PreviousTexture(pipe))])
  }

  function Transfers(t: Tables, pipes: seq<string>): Tables
  {
    if pipes == [] then t else TransferStep(Transfers(t, pipes[..|pipes| - 1]), pipes[|pipes| - 1])
  }

  /** The end of `setup`: with previous-frame pipes, the transfers of the previous-pipes stage and its creation. */
  function FinishPrevious(t: Tables): Tables
  {
    if t.previous == [] then t
    else
      var t1 := Transfers(t, t.previous);
      t1.(log := t1.log + [StageCreated(PreviousStageId)])
  }

  // ----- what the steps keep and produce -----

  predicate NoDup(s: seq<string>)
  {
    forall i, j :: 0 <= i < j < |s| ==> s[i] != s[j]
  }

  /** The previous-frame pipes whose texture the log records as created, in order. */
  function CreatedTextures(log: seq<Event>): seq<string>
  {
    if log == [] then []
    else CreatedTextures(log[..|log| - 1]) + (if log[|log| - 1].TextureCreated? then [log[|log| - 1].pipe] else [])
  }

  /** Each previous-frame pipe has exactly one texture: one creation per pipe, none twice. */
  predicate OneTexturePerPipe(t: Tables)
  {
    NoDup(t.previous) && CreatedTextures(t.log) == t.previous
  }

  lemma CreatedTexturesSnoc(log: seq<Event>, e: Event)
    ensures CreatedTextures(log + [e]) == CreatedTextures(log) + (if e.TextureCreated? then [e.pipe] else [])
  {
    assert (log + [e])[..|log|] == log;
  }

  /** An event other than a texture creation keeps one texture per previous-frame pipe. */
  lemma OneMoreEvent(t: Tables, e: Event)
    requires OneTexturePerPipe(t) && !e.TextureCreated?
    ensures OneTexturePerPipe(t.(log := t.log + [e]))
  {
    CreatedTexturesSnoc(t.log, e);
  }

  /** Binding a previous-frame pipe creates its texture only on first request. */
  lemma BindPreviousKeepsTextures(t: Tables, stage: string, pipe: string)
    requires OneTexturePerPipe(t) && StartsWith(pipe, PreviousPrefix)
    ensures OneTexturePerPipe(Apply(t, stage, BindPipe(pipe)))
    ensures forall p :: p in Apply(t, stage, BindPipe(pipe)).previous <==> p in t.previous || p == SplitLast(pipe)
  {
    var n := SplitLast(pipe);
    if n in t.previous {
      OneMoreEvent(t, ShaderInput(stage, "Previous_" + n, PreviousTexture(n)));
    } else {
      var t1 := t.(previous := t.previous + [n], log := t.log + [TextureCreated(n)]);
      CreatedTexturesSnoc(t.log, TextureCreated(n));
      assert OneTexturePerPipe(t1);
      OneMoreEvent(t1, ShaderInput(stage, "Previous_" + n, PreviousTexture(n)));
    }
  }

  lemma ApplyKeepsTextures(t: Tables, stage: string, step: Step)
    requires OneTexturePerPipe(t)
    ensures OneTexturePerPipe(Apply(t, stage, step))
    ensures forall p :: p in Apply(t, stage, step).previous <==>
      p in t.previous || (step.BindPipe? && StartsWith(step.pipe, PreviousPrefix) && p == SplitLast(step.pipe))
  {
    match step
    case BindPipe(pipe) =>
      if StartsWith(pipe, PreviousPrefix) {
        BindPreviousKeepsTextures(t, stage, pipe);
      } else if pipe !in t.pipes {
        OneMoreEvent(t, MissingPipe(pipe, stage));
      } else {
        OneMoreEvent(t, ShaderInput(stage, pipe, t.pipes[pipe]));
      }
    case BindInput(input) =>
      if input !in t.inputs && input !in t.ubos {
        OneMoreEvent(t, MissingInput(input, stage));
      } else if input in t.inputs {
        OneMoreEvent(t, ShaderInput(stage, input, t.inputs[input]));
      } else {
        OneMoreEvent(t, UboBound(input, stage));
      }
    case ProducePipe(_, _) =>
    case ProduceDefine(name, _) =>
      OneMoreEvent(t, DefineOverridden(stage, name));
    case ProduceInput(name, _) =>
      OneMoreEvent(t, InputOverridden(stage, name));
  }

  /** The previous-frame pipes requested by binding steps. */
  function RequestedPrevious(steps: seq<Step>): set<string>
  {
    set k | 0 <= k < |steps| && steps[k].BindPipe? && StartsWith(steps[k].pipe, PreviousPrefix) :: SplitLast(steps[k].pipe)
  }

  /** The pipe names registered by production steps. */
  function RegisteredPipes(steps: seq<Step>): set<string>
  {
    set k | 0 <= k < |steps| && steps[k].ProducePipe? :: steps[k].pipeName
  }

  lemma RequestedPreviousSnoc(steps: seq<Step>, last: Step)
    ensures forall p :: p in RequestedPrevious(steps + [last]) <==>
      p in RequestedPrevious(steps) || (last.BindPipe? && StartsWith(last.pipe, PreviousPrefix) && p == SplitLast(last.pipe))
  {
    RequestedPreviousFrom(steps, last);
    RequestedPreviousKept(steps, last);
    if last.BindPipe? && StartsWith(last.pipe, PreviousPrefix) {
      assert (steps + [last])[|steps|] == last;
    }
  }

  /** A pipe requested by steps and one more was requested by the steps or by the last one. */
  lemma RequestedPreviousFrom(steps: seq<Step>, last: Step)
    ensures forall p :: p in RequestedPrevious(steps + [last]) ==>
      p in RequestedPrevious(steps) || (last.BindPipe? && StartsWith(last.pipe, PreviousPrefix) && p == SplitLast(last.pipe))
  {
    var all := steps + [last];
    forall p | p in RequestedPrevious(all)
      ensures p in RequestedPrevious(steps) || (last.BindPipe? && StartsWith(last.pipe, PreviousPrefix) && p == SplitLast(last.pipe))
    {
      var k :| 0 <= k < |all| && all[k].BindPipe? && StartsWith(all[k].pipe, PreviousPrefix) && p == SplitLast(all[k].pipe);
      if k < |steps| {
        assert steps[k] == all[k];
      }
    }
  }

  /** One more step keeps every pipe the steps requested. */
  lemma RequestedPreviousKept(steps: seq<Step>, last: Step)
    ensures forall p :: p in RequestedPrevious(steps) ==> p in RequestedPrevious(steps + [last])
  {
    var all := steps + [last];
    forall p | p in RequestedPrevious(steps)
      ensures p in RequestedPrevious(all)
    {
      var k :| 0 <= k < |steps| && steps[k].BindPipe? && StartsWith(steps[k].pipe, PreviousPrefix) && p == SplitLast(steps[k].pipe);
      assert all[k] == steps[k];
    }
  }

  lemma RegisteredPipesSnoc(steps: seq<Step>, last: Step)
    ensures RegisteredPipes(steps + [last]) == RegisteredPipes(steps) + (if last.ProducePipe? then {last.pipeName} else {})
  {
    var all := steps + [last];
    forall p | p in RegisteredPipes(all)
      ensures p in RegisteredPipes(steps) || (last.ProducePipe? && p == last.pipeName)
    {
      var k :| 0 <= k < |all| && all[k].ProducePipe? && all[k].pipeName == p;
      if k < |steps| {
        assert steps[k] == all[k];
      }
    }
    forall p | p in RegisteredPipes(steps)
      ensures p in RegisteredPipes(all)
    {
      var k :| 0 <= k < |steps| && steps[k].ProducePipe? && steps[k].pipeName == p;
      assert all[k] == steps[k];
    }
    if last.ProducePipe? {
      assert all[|steps|] == last;
    }
  }

  lemma ApplyPipes(t: Tables, stage: string, step: Step)
    ensures Apply(t, stage, step).pipes.Keys == t.pipes.Keys + (if step.ProducePipe? then {step.pipeName} else {})
  {
  }

  /**
   * Running steps keeps one texture per previous-frame pipe, adds exactly the
   * requested previous-frame pipes, and adds exactly the registered pipes.
   */
  lemma {:induction false} RunEffects(t: Tables, stage: string, steps: seq<Step>)
    requires OneTexturePerPipe(t)
    ensures OneTexturePerPipe(Run(t, stage, steps))
    ensures forall p :: p in Run(t, stage, steps).previous <==> p in t.previous || p in RequestedPrevious(steps)
    ensures Run(t, stage, steps).pipes.Keys == t.pipes.Keys + RegisteredPipes(steps)
    decreases |steps|
  {
    if steps != [] {
      var init := steps[..|steps| - 1];
      var last := steps[|steps| - 1];
      assert steps == init + [last];
      RunEffects(t, stage, init);
      ApplyKeepsTextures(Run(t, stage, init), stage, last);
      ApplyPipes(Run(t, stage, init), stage, last);
      RequestedPreviousSnoc(init, last);
      RegisteredPipesSnoc(init, last);
    }
  }

  /** The pipes a stage produces. */
  function ProducedNames(st: Stage): set<string>
  {
    set k | 0 <= k < |st.producedPipes| :: st.producedPipes[k].0
  }

  /** The previous-frame pipes a stage requests. */
  function RequestedNames(st: Stage): set<string>
  {
    set k | 0 <= k < |st.inputPipes| && StartsWith(st.inputPipes[k], PreviousPrefix) :: SplitLast(st.inputPipes[k])
  }

  lemma BindingsRegisterNothing(st: Stage)
    ensures RegisteredPipes(PipeBindings(st.inputPipes)) == {}
    ensures RegisteredPipes(InputBindings(st.requiredInputs)) == {}
    ensures RegisteredPipes(DefineRegistrations(st.producedDefines)) == {}
    ensures RegisteredPipes(InputRegistrations(st.producedInputs)) == {}
    ensures RequestedPrevious(InputBindings(st.requiredInputs)) == {}
    ensures RequestedPrevious(PipeRegistrations(st.producedPipes)) == {}
    ensures RequestedPrevious(DefineRegistrations(st.producedDefines)) == {}
    ensures RequestedPrevious(InputRegistrations(st.producedInputs)) == {}
  {
  }

  lemma StepNames(st: Stage)
    ensures RegisteredPipes(PipeRegistrations(st.producedPipes)) == ProducedNames(st)
    ensures RequestedPrevious(PipeBindings(st.inputPipes)) == RequestedNames(st)
  {
    var r := PipeRegistrations(st.producedPipes);
    forall p | p in ProducedNames(st)
      ensures p in RegisteredPipes(r)
    {
      var k :| 0 <= k < |st.producedPipes| && st.producedPipes[k].0 == p;
      assert r[k].ProducePipe? && r[k].pipeName == p;
    }
    var b := PipeBindings(st.inputPipes);
    forall p | p in RequestedNames(st)
      ensures p in RequestedPrevious(b)
    {
      var k :| 0 <= k < |st.inputPipes| && StartsWith(st.inputPipes[k], PreviousPrefix) && SplitLast(st.inputPipes[k]) == p;
      assert b[k].BindPipe? && b[k].pipe == st.inputPipes[k];
    }
  }

  /** One stage keeps one texture per previous-frame pipe, adds the pipes it requests and the pipes it produces. */
  lemma ProcessStageEffects(t: Tables, st: Stage)
    requires OneTexturePerPipe(t)
    ensures OneTexturePerPipe(ProcessStage(t, st))
    ensures forall p :: p in ProcessStage(t, st).previous <==> p in t.previous || p in RequestedNames(st)
    ensures ProcessStage(t, st).pipes.Keys == t.pipes.Keys + ProducedNames(st)
  {
    var t1 := t.(log := t.log + [StageCreated(st.name)]);
    CreatedTexturesSnoc(t.log, StageCreated(st.name));
    var t2 := Run(t1, st.name, PipeBindings(st.inputPipes));
    var t3 := Run(t2, st.name, InputBindings(st.requiredInputs));
    BindingsRegisterNothing(st);
    StepNames(st);
    RunEffects(t1, st.name, PipeBindings(st.inputPipes));
    RunEffects(t2, st.name, InputBindings(st.requiredInputs));
    RegistrationEffects(t3, st);
  }

  /** Registering what a stage produces keeps the previous-frame pipes and adds the produced pipes. */
  lemma RegistrationEffects(t3: Tables, st: Stage)
    requires OneTexturePerPipe(t3)
    ensures var t4 := Run(t3, st.name, PipeRegistrations(st.producedPipes));
      var t5 := Run(t4, st.name, DefineRegistrations(st.producedDefines));
      var t6 := Run(t5, st.name, InputRegistrations(st.producedInputs));
      OneTexturePerPipe(t6) && (forall p :: p in t6.previous <==> p in t3.previous) &&
      t6.pipes.Keys == t3.pipes.Keys + ProducedNames(st)
  {
    var t4 := Run(t3, st.name, PipeRegistrations(st.producedPipes));
    var t5 := Run(t4, st.name, DefineRegistrations(st.producedDefines));
    BindingsRegisterNothing(st);
    StepNames(st);
    RunEffects(t3, st.name, PipeRegistrations(st.producedPipes));
    RunEffects(t4, st.name, DefineRegistrations(st.producedDefines));
    RunEffects(t5, st.name, InputRegistrations(st.producedInputs));
  }

  /** The pipes produced by the first `k` stages. */
  function ProducedBefore(stages: seq<Stage>): set<string>
  {
    if stages == [] then {} else ProducedBefore(stages[..|stages| - 1]) + ProducedNames(stages[|stages| - 1])
  }

  /** The previous-frame pipes requested by the stages. */
  function RequestedBy(stages: seq<Stage>): set<string>
  {
    if stages == [] then {} else RequestedBy(stages[..|stages| - 1]) + RequestedNames(stages[|stages| - 1])
  }

  /**
   * Over a run of stages: each previous-frame pipe has exactly one texture, the
   * previous-frame pipes are the requested ones, and the pipes available when a
   * stage binds its inputs are exactly those the stages before it produced.
   */
  lemma {:induction false} ProcessStagesEffects(t: Tables, stages: seq<Stage>)
    requires OneTexturePerPipe(t)
    ensures OneTexturePerPipe(ProcessStages(t, stages))
    ensures forall p :: p in ProcessStages(t, stages).previous <==> p in t.previous || p in RequestedBy(stages)
    ensures ProcessStages(t, stages).pipes.Keys == t.pipes.Keys + ProducedBefore(stages)
    decreases |stages|
  {
    if stages != [] {
      var init := stages[..|stages| - 1];
      ProcessStagesEffects(t, init);
      ProcessStageEffects(ProcessStages(t, init), stages[|stages| - 1]);
    }
  }

  /** The transfers log one event per previous-frame pipe: a transfer for a produced pipe, an error otherwise. */
  lemma {:induction false} TransfersEffects(t: Tables, pipes: seq<string>)
    ensures Transfers(t, pipes) == t.(log := Transfers(t, pipes).log)
    ensures |Transfers(t, pipes).log| == |t.log| + |pipes|
    ensures Transfers(t, pipes).log[..|t.log|] == t.log
    ensures forall k :: 0 <= k < |pipes| ==>
      Transfers(t, pipes).log[|t.log| + k] ==
        if pipes[k] in t.pipes then Transfer(t.pipes[pipes[k]], PreviousTexture(pipes[k])) else MissingPreviousPipe(pipes[k])
    decreases |pipes|
  {
    if pipes != [] {
      var init := pipes[..|pipes| - 1];
      var p := pipes[|pipes| - 1];
      TransfersEffects(t, init);
      var prev := Transfers(t, init);
      var e := if p in t.pipes then Transfer(t.pipes[p], PreviousTexture(p)) else MissingPreviousPipe(p);
      assert Transfers(t, pipes) == prev.(log := prev.log + [e]);
      forall k | 0 <= k < |init|
        ensures Transfers(t, pipes).log[|t.log| + k] == prev.log[|t.log| + k] && pipes[k] == init[k]
      {
      }
    }
  }

  /** The tables after `setup` has processed the given stages in order and finished with the previous-frame pipes. */
  function SetupTables(t: Tables, sorted: seq<Stage>): Tables
  {
    FinishPrevious(ProcessStages(t, sorted))
  }

  /** The stage list after `setup`: the sorted stages, then the previous-pipes stage if any previous-frame pipe was requested. */
  function SetupStages(sorted: seq<Stage>, t: Tables): seq<Stage>
  {
    sorted + (if ProcessStages(t, sorted).previous != [] then [PreviousStage] else [])
  }

  /** Finishing keeps one texture per previous-frame pipe and the previous-frame pipes themselves. */
  lemma FinishEffects(t: Tables)
    requires OneTexturePerPipe(t)
    ensures OneTexturePerPipe(FinishPrevious(t)) && FinishPrevious(t).previous == t.previous
    ensures FinishPrevious(t).pipes == t.pipes
  {
    if t.previous != [] {
      var t1 := Transfers(t, t.previous);
      TransfersEffects(t, t.previous);
      var more := t1.log[|t.log|..] + [StageCreated(PreviousStageId)];
      forall k | 0 <= k < |more|
        ensures !more[k].TextureCreated?
      {
        if k < |t.previous| {
          assert more[k] == t1.log[|t.log| + k];
          var p := t.previous[k];
          assert t1.log[|t.log| + k] == if p in t.pipes then Transfer(t.pipes[p], PreviousTexture(p)) else MissingPreviousPipe(p);
        } else {
          assert more[k] == StageCreated(PreviousStageId);
        }
      }
      TextureFree(t.log, more);
      assert t1.log + [StageCreated(PreviousStageId)] == t.log + more;
    }
  }

  /**
   * Stage `k` is processed on the tables the stages before it left, and when
   * it is about to bind its `j`-th input pipe the pipes on hand are exactly
   * the initial ones and those the stages before it produced.
   */
  lemma StageFindsProducedPipes(t: Tables, stages: seq<Stage>, k: nat, j: nat)
    requires OneTexturePerPipe(t) && k < |stages| && j <= |stages[k].inputPipes|
    ensures ProcessStages(t, stages[..k + 1]) == ProcessStage(ProcessStages(t, stages[..k]), stages[k])
    ensures var before := ProcessStages(t, stages[..k]);
      var st := stages[k];
      Run(before.(log := before.log + [StageCreated(st.name)]), st.name, PipeBindings(st.inputPipes)[..j]).pipes.Keys ==
        t.pipes.Keys + ProducedBefore(stages[..k])
  {
    assert stages[..k + 1][..k] == stages[..k];
    var before := ProcessStages(t, stages[..k]);
    var st := stages[k];
    ProcessStagesEffects(t, stages[..k]);
    CreatedTexturesSnoc(before.log, StageCreated(st.name));
    var prefix := PipeBindings(st.inputPipes)[..j];
    assert prefix == PipeBindings(st.inputPipes[..j]);
    BindingsRegisterNothing(st.(inputPipes := st.inputPipes[..j]));
    RunEffects(before.(log := before.log + [StageCreated(st.name)]), st.name, prefix);
  }

  /**
   * Stage `k`'s `j`-th input pipe, when it is not a previous-frame pipe, is
   * bound as a shader input exactly when it is an initial pipe or one a stage
   * before it produced; otherwise its binding logs the missing pipe.
   */
  lemma StageBindsPipe(t: Tables, stages: seq<Stage>, k: nat, j: nat)
    requires OneTexturePerPipe(t) && k < |stages| && j < |stages[k].inputPipes|
    requires !StartsWith(stages[k].inputPipes[j], PreviousPrefix)
    ensures var before := ProcessStages(t, stages[..k]);
      var st := stages[k];
      var pipe := st.inputPipes[j];
      var start := before.(log := before.log + [StageCreated(st.name)]);
      var r := Run(start, st.name, PipeBindings(st.inputPipes)[..j]);
      var r' := Run(start, st.name, PipeBindings(st.inputPipes)[..j + 1]);
      (pipe in t.pipes.Keys + ProducedBefore(stages[..k]) <==> pipe in r.pipes) &&
      (pipe in r.pipes ==> r'.log == r.log + [ShaderInput(st.name, pipe, r.pipes[pipe])]) &&
      (pipe !in r.pipes ==> r'.log == r.log + [MissingPipe(pipe, st.name)])
  {
    StageFindsProducedPipes(t, stages, k, j);
    var before := ProcessStages(t, stages[..k]);
    var st := stages[k];
    BindOneMore(before.(log := before.log + [StageCreated(st.name)]), st.name, st.inputPipes, j);
  }

  /** Binding one more ordinary input pipe logs a shader input if the pipe is on hand, and the missing pipe if not. */
  lemma BindOneMore(start: Tables, stage: string, pipes: seq<string>, j: nat)
    requires j < |pipes| && !StartsWith(pipes[j], PreviousPrefix)
    ensures var r := Run(start, stage, PipeBindings(pipes)[..j]);
      var r' := Run(start, stage, PipeBindings(pipes)[..j + 1]);
      (pipes[j] in r.pipes ==> r'.log == r.log + [ShaderInput(stage, pipes[j], r.pipes[pipes[j]])]) &&
      (pipes[j] !in r.pipes ==> r'.log == r.log + [MissingPipe(pipes[j], stage)])
  {
    var steps := PipeBindings(pipes);
    assert steps[..j + 1][..j] == steps[..j] && steps[..j + 1][j] == BindPipe(pipes[j]);
  }

  /**
   * What `setup` promises: the stages run in stage order, the previous-pipes
   * stage comes last exactly when some stage requested a previous-frame pipe,
   * each requested previous-frame pipe has one texture, and after the stages
   * the pipes are the initial ones and those the stages produced; what each
   * stage finds is `StageFindsProducedPipes`, and how it binds
   * each ordinary input pipe is `StageBindsPipe`.
   */
  lemma SetupEffects(t: Tables, stages: seq<Stage>)
    requires OneTexturePerPipe(t) && t.previous == []
    ensures var sorted := SortByRank(stages);
      SortedBy(StageRank, sorted) && multiset(sorted) == multiset(stages) &&
      SetupStages(sorted, t) == sorted + (if RequestedBy(sorted) != {} then [PreviousStage] else []) &&
      OneTexturePerPipe(SetupTables(t, sorted)) &&
      (forall p :: p in SetupTables(t, sorted).previous <==> p in RequestedBy(sorted)) &&
      ProcessStages(t, sorted).pipes.Keys == t.pipes.Keys + ProducedBefore(sorted)
  {
    var sorted := SortByRank(stages);
    SortByCorrect(StageRank, stages);
    ProcessStagesEffects(t, sorted);
    var after := ProcessStages(t, sorted);
    FinishEffects(after);
    if after.previous != [] {
      assert after.previous[0] in RequestedBy(sorted);
    } else {
      assert forall p :: p !in RequestedBy(sorted);
    }
  }

  /** Appending events other than texture creations leaves the created textures alone. */
  lemma {:induction false} TextureFree(log: seq<Event>, more: seq<Event>)
    requires forall k :: 0 <= k < |more| ==> !more[k].TextureCreated?
    ensures CreatedTextures(log + more) == CreatedTextures(log)
    decreases |more|
  {
    if more != [] {
      var init := more[..|more| - 1];
      assert more == init + [more[|more| - 1]];
      TextureFree(log, init);
      assert log + more == (log + init) + [more[|more| - 1]];
      assert !more[|more| - 1].TextureCreated?;
      CreatedTexturesSnoc(log + init, more[|more| - 1]);
      assert CreatedTextures(log + init) + [] == CreatedTextures(log + init);
    } else {
      assert log + more == log;
    }
  }

  // ----- the manager -----

  class StageManager {
    var stages: seq<Stage>
    var inputs: map<string, Resource>
    var pipes: map<string, Resource>
    var ubos: map<string, Resource>
    /** The previous-frame pipes, in the order first requested; each one's texture is `PreviousTexture` of it. */
    var previous: seq<string>
    var defines: map<string, Resource>
    var created: bool
    var log: seq<Event>

    /** The manager's tables as one value. */
    function Snapshot(): Tables
      reads this`inputs, this`pipes, this`ubos, this`previous, this`defines, this`log
    {
      Tables(inputs, pipes, ubos, previous, defines, log)
    }

    /** Every staged stage is of a known kind, and each previous-frame pipe has one texture. */
    ghost predicate Valid()
      reads this
    {
      (forall k :: 0 <= k < |stages| ==> stages[k].id in StageOrder) && OneTexturePerPipe(Snapshot())
    }

    /** A manager with no stages, no tables and nothing created. */
    constructor ()
      ensures Valid()
      ensures stages == [] && inputs == map[] && pipes == map[] && ubos == map[] && previous == []
      ensures defines == map[] && !created && log == []
    {
      stages := [];
      inputs := map[];
      pipes := map[];
      ubos := map[];
      previous := [];
      defines := map[];
      created := false;
      log := [];
    }

    /**
     * `add_stage`: a stage of an unknown kind is refused with an error, and so
     * is any stage once setup has run; otherwise it is appended.
     */
    method AddStage(stage: Stage)
      requires Valid()
      modifies this`stages, this`log
      ensures Valid()
      ensures stage.id !in StageOrder ==> stages == old(stages) && log == old(log) + [UnknownStage(stage.name)]
      ensures stage.id in StageOrder && created ==> stages == old(stages) && log == old(log) + [StagesAlreadyCreated]
      ensures stage.id in StageOrder && !created ==> stages == old(stages) + [stage] && log == old(log)
    {
      if stage.id !in StageOrder {
        OneMoreEvent(Snapshot(), UnknownStage(stage.name));
        log := log + [UnknownStage(stage.name)];
        return;
      }
      if created {
        OneMoreEvent(Snapshot(), StagesAlreadyCreated);
        log := log + [StagesAlreadyCreated];
        return;
      }
      stages := stages + [stage];
    }

    /** `add_input`: inserts or overwrites one shader input. */
    method AddInput(key: string, value: Resource)
      modifies this`inputs
      ensures inputs == old(inputs)[key := value]
      ensures key in inputs && inputs[key] == value && inputs.Keys == old(inputs).Keys + {key}
    {
      inputs := inputs[key := value];
    }

    /** `define`: inserts or overwrites one define. */
    method Define(key: string, value: Resource)
      modifies this`defines
      ensures defines == old(defines)[key := value]
      ensures key in defines && defines[key] == value && defines.Keys == old(defines).Keys + {key}
    {
      defines := defines[key := value];
    }

    /**
     * `setup`: marks the stages created, sorts them by stage order, processes
     * each in turn, and appends the previous-pipes stage when a previous-frame
     * pipe was requested.
     */
    method Setup()
      requires Valid()
      modifies this
      ensures Valid()
      ensures created
      ensures stages == SetupStages(SortByRank(old(stages)), old(Snapshot()))
      ensures Snapshot() == SetupTables(old(Snapshot()), SortByRank(old(stages)))
    {
      ghost var t0 := Snapshot();
      created := true;
      SortKeepsKinds(stages);
      var sorted := SortByRank(stages);
      stages := sorted;
      ProcessStagesEffects(t0, sorted);
      ProcessAll(sorted, t0);
      ghost var mid := ProcessStages(t0, sorted);
      FinishEffects(mid);
      FinishSetup(mid);
      assert Snapshot() == SetupTables(t0, sorted);
      assert stages == SetupStages(sorted, t0);
    }

    /** The main loop of `setup`: each stage processed in turn. */
    method ProcessAll(sorted: seq<Stage>, ghost t0: Tables)
      requires Snapshot() == t0
      modifies this`inputs, this`pipes, this`previous, this`defines, this`log
      ensures Snapshot() == ProcessStages(t0, sorted)
    {
      var i := 0;
      while i < |sorted|
        invariant 0 <= i <= |sorted|
        invariant Snapshot() == ProcessStages(t0, sorted[..i])
      {
        assert sorted[..i + 1][..i] == sorted[..i];
        RunStage(sorted[i]);
        i := i + 1;
      }
      assert sorted[..i] == sorted;
    }

    /** The end of `setup`: with previous-frame pipes, the previous-pipes stage gets its transfers and is appended. */
    method FinishSetup(ghost t1: Tables)
      requires Snapshot() == t1
      modifies this`stages, this`log
      ensures Snapshot() == FinishPrevious(t1)
      ensures stages == old(stages) + (if t1.previous != [] then [PreviousStage] else [])
    {
      if previous != [] {
        var j := 0;
        while j < |previous|
          invariant 0 <= j <= |previous| && stages == old(stages)
          invariant Snapshot() == Transfers(t1, previous[..j])
        {
          TransferPipe(previous[j]);
          assert previous[..j + 1][..j] == previous[..j];
          j := j + 1;
        }
        assert previous[..j] == previous;
        log := log + [StageCreated(PreviousStageId)];
        stages := stages + [PreviousStage];
      } else {
        assert stages == stages + [];
      }
    }

    /** One transfer of the previous-pipes stage, or the error for a pipe never produced. */
    method TransferPipe(pipe: string)
      modifies this`log
      ensures Snapshot() == TransferStep(old(Snapshot()), pipe)
    {
      if pipe !in pipes {
        log := log + [MissingPreviousPipe(pipe)];
      } else {
        log := log + [Transfer(pipes[pipe], PreviousTexture(pipe))];
      }
    }

    /** The processing of one stage inside `setup`. */
    method RunStage(st: Stage)
      modifies this`inputs, this`pipes, this`previous, this`defines, this`log
      ensures Snapshot() == ProcessStage(old(Snapshot()), st)
    {
      log := log + [StageCreated(st.name)];
      RunSteps(st.name, PipeBindings(st.inputPipes));
      RunSteps(st.name, InputBindings(st.requiredInputs));
      RunSteps(st.name, PipeRegistrations(st.producedPipes));
      RunSteps(st.name, DefineRegistrations(st.producedDefines));
      RunSteps(st.name, InputRegistrations(st.producedInputs));
    }

    /** One of the loops of a stage's processing. */
    method RunSteps(stage: string, steps: seq<Step>)
      modifies this`inputs, this`pipes, this`previous, this`defines, this`log
      ensures Snapshot() == Run(old(Snapshot()), stage, steps)
    {
      ghost var t0 := Snapshot();
      var i := 0;
      while i < |steps|
        invariant 0 <= i <= |steps|
        invariant Snapshot() == Run(t0, stage, steps[..i])
      {
        ApplyStep(stage, steps[i]);
        assert steps[..i + 1][..i] == steps[..i];
        i := i + 1;
      }
      assert steps[..i] == steps;
    }

    /** One binding or registration, as the bodies of `setup`'s inner loops do it. */
    method ApplyStep(stage: string, step: Step)
      modifies this`inputs, this`pipes, this`previous, this`defines, this`log
      ensures Snapshot() == Apply(old(Snapshot()), stage, step)
    {
      match step
      case BindPipe(pipe) =>
        if StartsWith(pipe, PreviousPrefix) {
          var name := SplitLast(pipe);
          if name !in previous {
            log := log + [TextureCreated(name)];
            previous := previous + [name];
          }
          log := log + [ShaderInput(stage, "Previous_" + name, PreviousTexture(name))];
        } else if pipe !in pipes {
          log := log + [MissingPipe(pipe, stage)];
        } else {
          log := log + [ShaderInput(stage, pipe, pipes[pipe])];
        }
      case BindInput(input) =>
        if input !in inputs && input !in ubos {
          log := log + [MissingInput(input, stage)];
        } else if input in inputs {
          log := log + [ShaderInput(stage, input, inputs[input])];
        } else {
          log := log + [UboBound(input, stage)];
        }
      case ProducePipe(name, data) =>
        pipes := pipes[name := data];
      case ProduceDefine(name, data) =>
        if name in defines {
          log := log + [DefineOverridden(stage, name)];
        }
        defines := defines[name := data];
      case ProduceInput(name, data) =>
        if name in inputs {
          log := log + [InputOverridden(stage, name)];
        }
        inputs := inputs[name := data];
    }
  }
}
