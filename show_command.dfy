/**
 * The `show` command: opening the input, the bounded first load of records, and the key-driven
 * loop that scrolls the full-screen table. Keystrokes arrive as a sequence of bytes and the
 * dataset as a sequence of records read through a forward-only cursor.
 */
module ShowCommand {
  import opened Base
  import opened Records
  import opened Exporter
  import opened Layout
  import opened TableHelper
  import ConvertCommand

  /** One byte read from the terminal. */
  newtype byte = x: int | 0 <= x < 256

  const KeyQuit: byte := 113    // 'q'
  const KeyUp: byte := 65       // last byte of the escape sequences of the arrow keys
  const KeyDown: byte := 66
  const KeyRight: byte := 67
  const KeyLeft: byte := 68

  /** Records read before the first screen (the count derived from the screen height is overridden). */
  const RowsToLoad: nat := 5

  // ----- opening the input -----

  /** The command line and the file-system fact `show` consults. */
  datatype ShowArguments = ShowArguments(
    input: string, inOption: Option<string>,
    inputExtension: string,                                // what getFileExtension returns
    inputIsFile: bool,
    headers: OptValue, delimiter: OptValue, enclosure: OptValue, escape: OptValue)

  /** The type asked for: the --in option, or else the extension. */
  function RequestedType(a: ShowArguments): string
  {
    if a.inOption.Some? then a.inOption.value else a.inputExtension
  }

  function SourceOptions(a: ShowArguments, inType: string): Options
  {
    map["type" := Text(inType), "filename" := Text(a.input),
        "headers" := a.headers, "delimiter" := a.delimiter, "enclosure" := a.enclosure,
        "escape" := a.escape, "direction" := Text("in")]
  }

  /** Type inference, the input-file check, then the factory, in that order. */
  function OpenSource(a: ShowArguments): (r: Result<Product>)
    ensures a.inOption.None? && a.inputExtension == "xml" ==> r == Failure(InvalidArgument(AmbiguousInputType))
    ensures r == Failure(Runtime(InputFileMissing)) <==> !(a.inOption.None? && a.inputExtension == "xml") && !a.inputIsFile
    ensures r.Success? <==>
              !(a.inOption.None? && a.inputExtension == "xml") && a.inputIsFile
              && RequestedType(a) in {"csv", "xml", "excel"}
    ensures r.Success? ==> r.value.IsSource() && r.value.filename == Text(a.input)
    ensures !(a.inOption.None? && a.inputExtension == "xml") && a.inputIsFile ==>
              r == Create(SourceOptions(a, RequestedType(a)))
  {
    var inType :- ConvertCommand.InferType(a.inOption, a.inputExtension, AmbiguousInputType);
    if !a.inputIsFile then Failure(Runtime(InputFileMissing))
    else Create(SourceOptions(a, inType))
  }

  /** Each input type gets its reader with the command's own options. */
  lemma InputReaders(a: ShowArguments)
    requires !(a.inOption.None? && a.inputExtension == "xml") && a.inputIsFile
    ensures RequestedType(a) == "csv" ==>
              OpenSource(a) == Success(CsvSource(Text(a.input), a.delimiter, a.enclosure, a.escape, a.headers))
    ensures RequestedType(a) == "xml" ==> OpenSource(a) == Success(XmlSource(Text(a.input)))
    ensures RequestedType(a) == "excel" ==> OpenSource(a) == Success(XmlExcelSource(Text(a.input), a.headers))
  {
    var given := SourceOptions(a, RequestedType(a));
    SourceOptionsFields(a, RequestedType(a));
    var o := Resolve(given).value;
    assert o["type"] == Text(RequestedType(a)) && o["direction"] == Text("in") && o["filename"] == Text(a.input);
    assert o["headers"] == a.headers && o["delimiter"] == a.delimiter;
    assert o["enclosure"] == a.enclosure && o["escape"] == a.escape;
    assert Create(given) == CreateSource(o);
  }

  /** What `interact` hands the factory, key by key. */
  lemma SourceOptionsFields(a: ShowArguments, inType: string)
    ensures SourceOptions(a, inType).Keys <= Known() && Required <= SourceOptions(a, inType).Keys
    ensures SourceOptions(a, inType)["type"] == Text(inType)
    ensures SourceOptions(a, inType)["direction"] == Text("in")
    ensures SourceOptions(a, inType)["filename"] == Text(a.input)
    ensures SourceOptions(a, inType)["headers"] == a.headers
    ensures SourceOptions(a, inType)["delimiter"] == a.delimiter
    ensures SourceOptions(a, inType)["enclosure"] == a.enclosure
    ensures SourceOptions(a, inType)["escape"] == a.escape
  {
  }

  // ----- the first load -----

  /** The column names of the first record, or none for an empty dataset. */
  function HeadersOf(source: seq<Record>): seq<string>
  {
    if source == [] then [] else Columns(source[0])
  }

  /** Every record has the columns of the first one, each once, as the readers produce them. */
  predicate Uniform(source: seq<Record>)
  {
    Shaped(HeadersOf(source), source)
  }

  /** The first load: the leading records, at most `RowsToLoad`, and the first record's columns. */
  method InitialLoad(source: seq<Record>) returns (datas: seq<Record>, headers: seq<string>)
    ensures datas == source[..Min(RowsToLoad, |source|)]
    ensures headers == HeadersOf(source)
  {
    datas := [];
    headers := [];
    var position := 0;
    while position < |source|
      invariant position <= |source| && position <= RowsToLoad
      invariant datas == source[..position]
      invariant headers == if position == 0 then [] else Columns(source[0])
    {
      var data := source[position];
      if position == RowsToLoad {
        break;
      }
      if position == 0 {
        headers := Columns(data);
      }
      datas := datas + [data];
      position := position + 1;
    }
  }

  // ----- the navigation state machine -----

  /** What the key loop keeps between keys: the helper's offsets, the number of records read
      (the source cursor) and the render flag. */
  datatype Viewport = Viewport(rowOffset: nat, colOffset: nat, loaded: nat, render: bool)

  /** What the loop consults but never changes. */
  datatype Env = Env(sourceLen: nat, nbRowsToShow: int, nbHeaders: nat)

  function EnvOf(source: seq<Record>, screenHeight: nat): Env
  {
    Env(|source|, NbRowsToShow(screenHeight), |HeadersOf(source)|)
  }

  /** Before the first key: the first load done and a render pending. */
  function Initial(e: Env): Viewport
  {
    Viewport(0, 0, Min(RowsToLoad, e.sourceLen), true)
  }

  /** One pass of the key switch, on a state whose pending render has just been done. */
  function Step(v: Viewport, key: byte, e: Env): (w: Viewport)
    ensures v.loaded <= w.loaded <= Max(v.loaded, e.sourceLen)
  {
    var v := v.(render := false);
    if key == KeyUp then
      v.(rowOffset := v.rowOffset + 1, render := true)
    else if key == KeyDown then
      var v := if v.loaded < e.sourceLen then v.(loaded := v.loaded + 1, render := true) else v;
      if e.nbRowsToShow <= v.loaded && v.rowOffset + 1 < v.loaded then v.(rowOffset := v.rowOffset + 1, render := true)
      else v
    else if key == KeyRight then
      if v.colOffset + 1 < e.nbHeaders then v.(colOffset := v.colOffset + 1, render := true) else v
    else if key == KeyLeft then
      if v.colOffset >= 1 then v.(colOffset := v.colOffset - 1, render := true) else v
    else
      v   // 'q' ends the loop; every other byte falls through the switch
  }

  /** The state after the first n keys. */
  function Run(e: Env, keys: seq<byte>, n: nat): Viewport
    requires n <= |keys|
  {
    if n == 0 then Initial(e) else Step(Run(e, keys, n - 1), keys[n - 1], e)
  }

  /** The states that get drawn while the first n keys are read, in order. */
  function Rendered(e: Env, keys: seq<byte>, n: nat): (views: seq<Viewport>)
    requires n <= |keys|
    ensures |views| >= 1
  {
    if n == 0 then [Initial(e)]
    else Rendered(e, keys, n - 1) + (if Run(e, keys, n).render then [Run(e, keys, n)] else [])
  }


  /** The helper's state when it draws a view. */
  function SheetOf(v: Viewport, source: seq<Record>, screenWidth: nat, screenHeight: nat): Sheet
    requires v.loaded <= |source|
  {
    Sheet(HeadersOf(source), source[..v.loaded], v.rowOffset, v.colOffset, screenWidth / 4, "...", screenWidth, screenHeight)
  }

  /** What the helper prints for a view: its frame, or nothing when it cannot lay the view out. */
  function ScreenOf(source: seq<Record>, screenWidth: nat, screenHeight: nat): Viewport -> Option<Frame>
  {
    (v: Viewport) => if v.loaded <= |source| && LayoutDefined(SheetOf(v, source, screenWidth, screenHeight))
                    then Some(FrameOf(SheetOf(v, source, screenWidth, screenHeight)))
                    else None
  }

  // ----- properties of the state machine -----

  /** A pending render is always of the current state, which is then the last one drawn. */
  lemma RenderedLast(e: Env, keys: seq<byte>, n: nat)
    requires n <= |keys|
    ensures Run(e, keys, n).render ==> Rendered(e, keys, n)[|Rendered(e, keys, n)| - 1] == Run(e, keys, n)
  {
  }

  /** Reading only goes forward and never past the end; the column offset stays on a column. */
  lemma {:induction false} RunBounds(e: Env, keys: seq<byte>, n: nat)
    requires n <= |keys|
    ensures Initial(e).loaded <= Run(e, keys, n).loaded <= e.sourceLen
    ensures Run(e, keys, n).colOffset == 0 || Run(e, keys, n).colOffset < e.nbHeaders
  {
    if n > 0 {
      RunBounds(e, keys, n - 1);
    }
  }

  /** A key reads at most one record, and Down reads the next unread one whenever there is one. */
  lemma ReadsOneAtATime(v: Viewport, key: byte, e: Env)
    ensures Step(v, key, e).loaded == if key == KeyDown && v.loaded < e.sourceLen then v.loaded + 1 else v.loaded
  {
  }

  /** Down appends exactly the next record of the source to what was loaded. */
  lemma DownAppendsNext(source: seq<Record>, v: Viewport, e: Env)
    requires e.sourceLen == |source| && v.loaded < |source|
    ensures Step(v, KeyDown, e).loaded <= |source|
    ensures source[..Step(v, KeyDown, e).loaded] == source[..v.loaded] + [source[v.loaded]]
  {
    assert source[..v.loaded + 1] == source[..v.loaded] + [source[v.loaded]];
  }

  /** Down moves the first shown row one further exactly when a screenful is loaded and a loaded row
      follows it, and otherwise keeps it; it never lands past the last loaded row. */
  lemma DownKeepsRowOnLoaded(v: Viewport, e: Env)
    ensures Step(v, KeyDown, e).rowOffset <= v.rowOffset + 1
    ensures Step(v, KeyDown, e).rowOffset > v.rowOffset ==>
              e.nbRowsToShow <= Step(v, KeyDown, e).loaded && Step(v, KeyDown, e).rowOffset < Step(v, KeyDown, e).loaded
    ensures v.rowOffset < v.loaded ==> Step(v, KeyDown, e).rowOffset < Step(v, KeyDown, e).loaded
    ensures Step(v, KeyDown, e).rowOffset ==
              if e.nbRowsToShow <= Step(v, KeyDown, e).loaded && v.rowOffset + 1 < Step(v, KeyDown, e).loaded
              then v.rowOffset + 1 else v.rowOffset
  {
  }

  /** Key 65 always moves the first shown row one further, whatever was loaded. */
  lemma UpAlwaysAdvances(v: Viewport, e: Env)
    ensures Step(v, KeyUp, e) == v.(rowOffset := v.rowOffset + 1, render := true)
  {
  }

  /** A run of key 65 moves the first shown row one further per key, past everything loaded. */
  lemma {:induction false} UpPassesLoaded(e: Env, keys: seq<byte>, n: nat)
    requires n <= |keys| && forall k :: 0 <= k < n ==> keys[k] == KeyUp
    ensures Run(e, keys, n).rowOffset == n
    ensures Run(e, keys, n).loaded == Initial(e).loaded
  {
    if n > 0 {
      UpPassesLoaded(e, keys, n - 1);
    }
  }

  /** 'q' and every byte the switch does not list leave the state as it was. */
  lemma OtherKeysChangeNothing(v: Viewport, key: byte, e: Env)
    requires key !in {KeyUp, KeyDown, KeyRight, KeyLeft}
    ensures Step(v, key, e) == v.(render := false)
  {
  }

  /** A key asks for a new render exactly when it changed an offset or read a record. */
  lemma RenderIffChanged(v: Viewport, key: byte, e: Env)
    ensures Step(v, key, e).render <==> Step(v, key, e).(render := false) != v.(render := false)
  {
  }

  /** Left at the first column and Right at the last one are not redrawn. */
  lemma ColumnEdgesAreInert(v: Viewport, e: Env)
    ensures v.colOffset == 0 ==> !Step(v, KeyLeft, e).render
    ensures v.colOffset + 1 >= e.nbHeaders ==> !Step(v, KeyRight, e).render
  {
  }

  // ----- the session -----

  /** How the key loop ended: on 'q', when the keys ran out, or on a screen the helper cannot
      lay out (its column count loop runs past the last column and never returns). */
  datatype Outcome = Quitted | KeysExhausted | Stuck

  datatype Session = Session(outcome: Outcome, consumed: nat, frames: seq<Frame>, datas: seq<Record>, rowOffset: nat, colOffset: nat)

  /** Each frame is what the screen shows for the view at the same position. */
  ghost predicate Drawn(frames: seq<Frame>, views: seq<Viewport>, screen: Viewport -> Option<Frame>)
  {
    |frames| <= |views| && forall j :: 0 <= j < |frames| ==> screen(views[j]) == Some(frames[j])
  }

  /** What the key loop does with the given keys, for any way `screen` of drawing a view: it reads
      the keys up to and including the first 'q', draws one frame per view that asks for one, and
      stops on 'q', when the keys run out, or on a view it cannot draw. */
  ghost predicate Played(s: Session, source: seq<Record>, keys: seq<byte>, screenHeight: nat, screen: Viewport -> Option<Frame>)
  {
    var e := EnvOf(source, screenHeight);
    && s.consumed <= |keys|
    && var v := Run(e, keys, s.consumed);
    && v.loaded <= |source|
    && s.datas == source[..v.loaded]
    && s.rowOffset == v.rowOffset && s.colOffset == v.colOffset
    && (s.outcome == Quitted ==>
          0 < s.consumed && keys[s.consumed - 1] == KeyQuit && KeyQuit !in keys[..s.consumed - 1])
    && (s.outcome != Quitted ==> KeyQuit !in keys[..s.consumed])
    && (s.outcome == KeysExhausted ==> s.consumed == |keys|)
    && (s.outcome == Stuck ==> v.render && screen(v).None?)
    && |s.frames| == |Rendered(e, keys, s.consumed)| - (if s.outcome == Stuck then 1 else 0)
    && Drawn(s.frames, Rendered(e, keys, s.consumed), screen)
  }

  /** What the key loop does from a given point on: draw the pending view (or get stuck on it),
      then stop when the keys run out or on 'q', and otherwise act on the key and go round again. */
  function Resume(source: seq<Record>, keys: seq<byte>, screenHeight: nat, screen: Viewport -> Option<Frame>,
                  v: Viewport, frames: seq<Frame>, i: nat): Session
    requires i <= |keys| && v.loaded <= |source|
    decreases |keys| - i
  {
    if v.render && screen(v).None? then
      Session(Stuck, i, frames, source[..v.loaded], v.rowOffset, v.colOffset)
    else
      var frames := if v.render then frames + [screen(v).value] else frames;
      if i == |keys| then Session(KeysExhausted, i, frames, source[..v.loaded], v.rowOffset, v.colOffset)
      else if keys[i] == KeyQuit then Session(Quitted, i + 1, frames, source[..v.loaded], v.rowOffset, v.colOffset)
      else Resume(source, keys, screenHeight, screen, Step(v, keys[i], EnvOf(source, screenHeight)), frames, i + 1)
  }

  /** The whole session on a helper of the given screen size, from the first load on. */
  function Play(source: seq<Record>, keys: seq<byte>, screenWidth: nat, screenHeight: nat): Session
  {
    Resume(source, keys, screenHeight, ScreenOf(source, screenWidth, screenHeight), Initial(EnvOf(source, screenHeight)), [], 0)
  }

  /** The facts the key loop keeps about a point it reaches after i keys: no 'q' read yet, and one
      frame drawn per view that asked for one, except a pending one. */
  ghost predicate Reached(source: seq<Record>, keys: seq<byte>, screenHeight: nat, screen: Viewport -> Option<Frame>,
                          frames: seq<Frame>, i: nat)
  {
    var e := EnvOf(source, screenHeight);
    && i <= |keys| && KeyQuit !in keys[..i]
    && Run(e, keys, i).loaded <= |source|
    && |frames| == |Rendered(e, keys, i)| - (if Run(e, keys, i).render then 1 else 0)
    && Drawn(frames, Rendered(e, keys, i), screen)
  }

  /** Drawing the pending view, if any, completes the frames for the keys read so far. */
  lemma DrawPending(source: seq<Record>, keys: seq<byte>, screenHeight: nat, screen: Viewport -> Option<Frame>,
                    frames: seq<Frame>, i: nat)
    requires Reached(source, keys, screenHeight, screen, frames, i)
    requires var v := Run(EnvOf(source, screenHeight), keys, i); v.render ==> screen(v).Some?
    ensures var e := EnvOf(source, screenHeight);
            var v := Run(e, keys, i);
            var frames' := if v.render then frames + [screen(v).value] else frames;
            |frames'| == |Rendered(e, keys, i)| && Drawn(frames', Rendered(e, keys, i), screen)
  {
    RenderedLast(EnvOf(source, screenHeight), keys, i);
  }

  /** Reading one more key that is not 'q', after every view so far was drawn. */
  lemma NextKey(source: seq<Record>, keys: seq<byte>, screenHeight: nat, screen: Viewport -> Option<Frame>,
                frames: seq<Frame>, i: nat)
    requires i < |keys| && keys[i] != KeyQuit && KeyQuit !in keys[..i]
    requires var e := EnvOf(source, screenHeight);
             |frames| == |Rendered(e, keys, i)| && Drawn(frames, Rendered(e, keys, i), screen)
    ensures Reached(source, keys, screenHeight, screen, frames, i + 1)
  {
    var e := EnvOf(source, screenHeight);
    assert keys[..i + 1] == keys[..i] + [keys[i]];
    assert KeyQuit !in keys[..i + 1];
    RunBounds(e, keys, i + 1);
    var v := Run(e, keys, i + 1);
    var more := if v.render then [v] else [];
    assert Rendered(e, keys, i + 1) == Rendered(e, keys, i) + more;
    assert |frames| == |Rendered(e, keys, i + 1)| - (if v.render then 1 else 0);
    DrawnExtends(frames, Rendered(e, keys, i), more, screen);
  }

  /** Views added after the drawn ones do not disturb them. */
  lemma DrawnExtends(frames: seq<Frame>, views: seq<Viewport>, more: seq<Viewport>, screen: Viewport -> Option<Frame>)
    requires Drawn(frames, views, screen)
    ensures Drawn(frames, views + more, screen)
  {
    forall j | 0 <= j < |frames|
      ensures screen((views + more)[j]) == Some(frames[j])
    {
      assert (views + more)[j] == views[j];
    }
  }

  /** Stopping on 'q', every view drawn. */
  lemma QuitPlayed(source: seq<Record>, keys: seq<byte>, screenHeight: nat, screen: Viewport -> Option<Frame>,
                   frames: seq<Frame>, i: nat)
    requires i < |keys| && keys[i] == KeyQuit && KeyQuit !in keys[..i]
    requires Run(EnvOf(source, screenHeight), keys, i).loaded <= |source|
    requires var e := EnvOf(source, screenHeight);
             |frames| == |Rendered(e, keys, i)| && Drawn(frames, Rendered(e, keys, i), screen)
    ensures var v := Run(EnvOf(source, screenHeight), keys, i);
            Played(Session(Quitted, i + 1, frames, source[..v.loaded], v.rowOffset, v.colOffset), source, keys, screenHeight, screen)
  {
    var e := EnvOf(source, screenHeight);
    OtherKeysChangeNothing(Run(e, keys, i), keys[i], e);
    assert Rendered(e, keys, i + 1) == Rendered(e, keys, i);
    assert keys[..i + 1][..i] == keys[..i];
  }

  /** From any point the loop can reach, the rest of the session meets `Played`. */
  lemma {:induction false} ResumePlayed(source: seq<Record>, keys: seq<byte>, screenHeight: nat, screen: Viewport -> Option<Frame>,
                                        frames: seq<Frame>, i: nat)
    requires Reached(source, keys, screenHeight, screen, frames, i)
    ensures Played(Resume(source, keys, screenHeight, screen, Run(EnvOf(source, screenHeight), keys, i), frames, i),
                   source, keys, screenHeight, screen)
    decreases |keys| - i
  {
    var v := Run(EnvOf(source, screenHeight), keys, i);
    if v.render && screen(v).None? {
      return;
    }
    DrawPending(source, keys, screenHeight, screen, frames, i);
    var frames' := if v.render then frames + [screen(v).value] else frames;
    if i == |keys| {
      assert keys[..i] == keys;
    } else if keys[i] == KeyQuit {
      QuitPlayed(source, keys, screenHeight, screen, frames', i);
    } else {
      NextKey(source, keys, screenHeight, screen, frames', i);
      ResumePlayed(source, keys, screenHeight, screen, frames', i + 1);
    }
  }

  /** The session `interact` plays meets its description, whatever the keys and the screen. */
  lemma PlayIsPlayed(source: seq<Record>, keys: seq<byte>, screenWidth: nat, screenHeight: nat)
    ensures Played(Play(source, keys, screenWidth, screenHeight), source, keys, screenHeight, ScreenOf(source, screenWidth, screenHeight))
  {
    assert keys[..0] == [];
    RunBounds(EnvOf(source, screenHeight), keys, 0);
    ResumePlayed(source, keys, screenHeight, ScreenOf(source, screenWidth, screenHeight), [], 0);
  }

  /** Frames once drawn are never taken back: they stay a prefix of the session's frames. */
  lemma {:induction false} ResumeKeepsFrames(source: seq<Record>, keys: seq<byte>, screenHeight: nat,
                                             screen: Viewport -> Option<Frame>, v: Viewport, frames: seq<Frame>, i: nat)
    requires i <= |keys| && v.loaded <= |source|
    ensures frames <= Resume(source, keys, screenHeight, screen, v, frames, i).frames
    decreases |keys| - i
  {
    if !(v.render && screen(v).None?) && i < |keys| && keys[i] != KeyQuit {
      var frames' := if v.render then frames + [screen(v).value] else frames;
      ResumeKeepsFrames(source, keys, screenHeight, screen, Step(v, keys[i], EnvOf(source, screenHeight)), frames', i + 1);
    }
  }

  /** With the helper drawing, frame j is the helper's rendering of the j-th view that asked for one. */
  lemma DrawnByHelper(s: Session, source: seq<Record>, keys: seq<byte>, screenWidth: nat, screenHeight: nat, j: nat)
    requires Played(s, source, keys, screenHeight, ScreenOf(source, screenWidth, screenHeight)) && j < |s.frames|
    ensures var views := Rendered(EnvOf(source, screenHeight), keys, s.consumed);
            && j < |views| && views[j].loaded <= |source|
            && LayoutDefined(SheetOf(views[j], source, screenWidth, screenHeight))
            && s.frames[j] == FrameOf(SheetOf(views[j], source, screenWidth, screenHeight))
  {
    var views := Rendered(EnvOf(source, screenHeight), keys, s.consumed);
    assert ScreenOf(source, screenWidth, screenHeight)(views[j]) == Some(s.frames[j]);
  }

  /** With the helper drawing, a session that got stuck stopped on a view it cannot lay out. */
  lemma StuckByHelper(s: Session, source: seq<Record>, keys: seq<byte>, screenWidth: nat, screenHeight: nat)
    requires Played(s, source, keys, screenHeight, ScreenOf(source, screenWidth, screenHeight)) && s.outcome == Stuck
    ensures var v := Run(EnvOf(source, screenHeight), keys, s.consumed);
            v.render && v.loaded <= |source| && !LayoutDefined(SheetOf(v, source, screenWidth, screenHeight))
  {
    var v := Run(EnvOf(source, screenHeight), keys, s.consumed);
    assert ScreenOf(source, screenWidth, screenHeight)(v).None?;
  }

  /** A prefix of a uniform source is laid out over the source's headers. */
  lemma UniformPrefix(source: seq<Record>, n: nat)
    requires Uniform(source) && n <= |source|
    ensures Shaped(HeadersOf(source), source[..n])
  {
  }

  /** Whatever the screen, the first view is drawn first when it can be. */
  lemma FirstViewFirst(source: seq<Record>, keys: seq<byte>, screenHeight: nat, screen: Viewport -> Option<Frame>)
    requires Initial(EnvOf(source, screenHeight)).loaded <= |source|
    requires screen(Initial(EnvOf(source, screenHeight))).Some?
    ensures var s := Resume(source, keys, screenHeight, screen, Initial(EnvOf(source, screenHeight)), [], 0);
            s.frames != [] && s.frames[0] == screen(Initial(EnvOf(source, screenHeight))).value
  {
    var e := EnvOf(source, screenHeight);
    var v := Initial(e);
    var first := [] + [screen(v).value];
    if 0 < |keys| && keys[0] != KeyQuit {
      ResumeKeepsFrames(source, keys, screenHeight, screen, Step(v, keys[0], e), first, 1);
    }
  }

  /** The first screen is always drawn: it is at column 0, where the layout is always defined. */
  lemma FirstScreenDrawn(source: seq<Record>, keys: seq<byte>, screenWidth: nat, screenHeight: nat)
    requires Uniform(source)
    ensures var s := Play(source, keys, screenWidth, screenHeight);
            s.frames != [] && s.frames[0] == FrameOf(SheetOf(Initial(EnvOf(source, screenHeight)), source, screenWidth, screenHeight))
  {
    var v := Initial(EnvOf(source, screenHeight));
    var sheet := SheetOf(v, source, screenWidth, screenHeight);
    UniformPrefix(source, v.loaded);
    LayoutDefinedAtOrigin(sheet);
    FirstViewFirst(source, keys, screenHeight, ScreenOf(source, screenWidth, screenHeight));
  }

  /** The loop can only hang after scrolling right: a view at column 0 is always laid out. */
  lemma StuckOnlyScrolledRight(s: Session, source: seq<Record>, keys: seq<byte>, screenWidth: nat, screenHeight: nat)
    requires Uniform(source)
    requires Played(s, source, keys, screenHeight, ScreenOf(source, screenWidth, screenHeight)) && s.outcome == Stuck
    ensures s.colOffset > 0
  {
    StuckByHelper(s, source, keys, screenWidth, screenHeight);
    var v := Run(EnvOf(source, screenHeight), keys, s.consumed);
    if v.colOffset == 0 {
      UniformPrefix(source, v.loaded);
      LayoutDefinedAtOrigin(SheetOf(v, source, screenWidth, screenHeight));
    }
  }

  /** Unless the loop got stuck, the last view that asked to be drawn was drawn. */
  lemma LastViewDrawn(s: Session, source: seq<Record>, keys: seq<byte>, screenHeight: nat, screen: Viewport -> Option<Frame>)
    requires Played(s, source, keys, screenHeight, screen) && s.outcome != Stuck
    ensures var v := Run(EnvOf(source, screenHeight), keys, s.consumed);
            v.render ==> screen(v) == Some(s.frames[|s.frames| - 1])
  {
    RenderedLast(EnvOf(source, screenHeight), keys, s.consumed);
  }

  /** Without a 'q' among the keys the loop reads them all unless it gets stuck first, and in the
      first case the last view that asked to be drawn was drawn. */
  lemma NoQuitReadsAll(s: Session, source: seq<Record>, keys: seq<byte>, screenHeight: nat, screen: Viewport -> Option<Frame>)
    requires Played(s, source, keys, screenHeight, screen) && KeyQuit !in keys
    ensures s.outcome == KeysExhausted || s.outcome == Stuck
    ensures var v := Run(EnvOf(source, screenHeight), keys, |keys|);
            s.outcome == KeysExhausted && v.render ==> screen(v).Some?
  {
    if s.outcome == KeysExhausted {
      LastViewDrawn(s, source, keys, screenHeight, screen);
    }
  }

  /** One record of five columns, each ten characters wide once padded. */
  function FiveColumns(): seq<Record>
  {
    [[Field("column1", ""), Field("column2", ""), Field("column3", ""), Field("column4", ""), Field("column5", "")]]
  }

  /** Every column of that record is ten characters wide when the cap is ten. */
  lemma FiveColumnsWidths(s: Sheet)
    requires s.headers == HeadersOf(FiveColumns()) && s.rows == FiveColumns() && s.maxColWidth == 10
    ensures Shaped(s.headers, s.rows) && Widths(s) == [10, 10, 10, 10, 10]
  {
  }

  lemma SumOfTens()
    ensures Sum([10, 10, 10, 10, 10]) == 50
  {
    var ws := [10, 10, 10, 10, 10];
    SumSnoc(ws, 0); SumSnoc(ws, 1); SumSnoc(ws, 2); SumSnoc(ws, 3); SumSnoc(ws, 4);
    assert ws[..0] == [] && ws[..5] == ws;
  }

  /** On a 40-character screen the columns from the fourth on do not fill the width, so the helper's
      column count loop runs off the end. */
  lemma FourthColumnOverruns()
    ensures var v := Viewport(0, 3, 1, true);
            v.loaded <= |FiveColumns()| && !LayoutDefined(SheetOf(v, FiveColumns(), 40, 24))
  {
    var s := SheetOf(Viewport(0, 3, 1, true), FiveColumns(), 40, 24);
    assert s.rows == FiveColumns();
    FiveColumnsWidths(s);
    SumOfTens();
    assert Remaining(s) == [10, 10];
    assert FitCount([10, 10], 27) == 2;
  }

  /** Three presses of Right on that table scroll to its fourth column, each asking for a render. */
  lemma ThreeRights()
    ensures Run(EnvOf(FiveColumns(), 24), [KeyRight, KeyRight, KeyRight], 3) == Viewport(0, 3, 1, true)
  {
    var e, keys := EnvOf(FiveColumns(), 24), [KeyRight, KeyRight, KeyRight];
    assert e == Env(1, 20, 5) by { assert |HeadersOf(FiveColumns())| == |Columns(FiveColumns()[0])| == 5; }
    assert Run(e, keys, 1) == Viewport(0, 1, 1, true);
    assert Run(e, keys, 2) == Viewport(0, 2, 1, true);
  }

  /** So `interact` on that table, given those three keys, never draws the fourth view: it hangs. */
  lemma RightScrollHangs()
    ensures Play(FiveColumns(), [KeyRight, KeyRight, KeyRight], 40, 24).outcome == Stuck
  {
    var source, keys := FiveColumns(), [KeyRight, KeyRight, KeyRight];
    PlayIsPlayed(source, keys, 40, 24);
    NoQuitReadsAll(Play(source, keys, 40, 24), source, keys, 24, ScreenOf(source, 40, 24));
    ThreeRights();
    FourthColumnOverruns();
  }

  /** `interact`: open the input, load the first records, then draw and read keys until 'q'. */
  method Interact(a: ShowArguments, source: seq<Record>, keys: seq<byte>, screenWidth: nat, screenHeight: nat)
    returns (r: Result<Session>)
    ensures r.Failure? <==> OpenSource(a).Failure?
    ensures r.Failure? ==> r.error == OpenSource(a).error
    ensures r.Success? ==> r.value == Play(source, keys, screenWidth, screenHeight)
    ensures r.Success? ==> Played(r.value, source, keys, screenHeight, ScreenOf(source, screenWidth, screenHeight))
  {
    var input :- OpenSource(a);   // the records it yields are `source`
    var session := Show(source, keys, screenWidth, screenHeight);
    PlayIsPlayed(source, keys, screenWidth, screenHeight);
    r := Success(session);
  }

  /** Everything after opening the input: the first load, the helper's set-up and the key loop. */
  method Show(source: seq<Record>, keys: seq<byte>, screenWidth: nat, screenHeight: nat) returns (session: Session)
    ensures session == Play(source, keys, screenWidth, screenHeight)
  {
    var datas, headers := InitialLoad(source);
    var helper := new FullScreenTable(screenWidth, screenHeight);
    helper.SetHeaders(headers);
    helper.SetMaxColWidth(screenWidth / 4);
    session := Browse(helper, source, datas, keys);
  }

  /** The key loop, on a helper holding the first load. */
  method Browse(helper: FullScreenTable, source: seq<Record>, datas: seq<Record>, keys: seq<byte>)
    returns (session: Session)
    requires helper.headers == HeadersOf(source) && datas == source[..Min(RowsToLoad, |source|)]
    requires helper.rowOffset == 0 && helper.colOffset == 0
    requires helper.maxColWidth == helper.screenWidth / 4 && helper.moreColsText == "..."
    modifies helper`rows, helper`rowOffset, helper`colOffset, helper`colsWidth, helper`totalColsWidth
    ensures session == Play(source, keys, helper.screenWidth, helper.screenHeight)
  {
    ghost var e := EnvOf(source, helper.screenHeight);
    ghost var screen := ScreenOf(source, helper.screenWidth, helper.screenHeight);
    ghost var v := Initial(e);
    ghost var whole := Play(source, keys, helper.screenWidth, helper.screenHeight);
    var datas := datas;
    var cursor := |datas|;
    var frames: seq<Frame> := [];
    var outcome := KeysExhausted;
    var running := true;
    var render := true;
    var i := 0;
    while running
      invariant i <= |keys| && v.loaded <= |source|
      invariant cursor == v.loaded && datas == source[..cursor]
      invariant helper.rowOffset == v.rowOffset && helper.colOffset == v.colOffset
      invariant running ==> render == v.render && outcome == KeysExhausted
      invariant running ==> Resume(source, keys, helper.screenHeight, screen, v, frames, i) == whole
      invariant !running ==> Session(Quitted, i, frames, datas, helper.rowOffset, helper.colOffset) == whole
      invariant !running ==> outcome == Quitted
      decreases |keys| - i
    {
      helper.SetRows(datas);
      if render {
        assert helper.Snapshot() == SheetOf(v, source, helper.screenWidth, helper.screenHeight);
        if !LayoutDefined(helper.Snapshot()) {
          assert screen(v) == None;
          outcome := Stuck;
          break;
        }
        var f := helper.Render();
        assert screen(v) == Some(f);
        frames := frames + [f];
        render := false;
      }
      if i == |keys| {
        break;
      }
      var key := keys[i];
      if key == KeyQuit {
        running := false;
        outcome := Quitted;
      } else {
        datas, cursor, render := HandleKey(helper, key, source, datas, cursor, v, e);
        v := Step(v, key, e);
      }
      i := i + 1;
    }
    session := Session(outcome, i, frames, datas, helper.rowOffset, helper.colOffset);
  }


  /** One pass of the key switch, applied to the helper and the source cursor ('q' only ends the loop). */
  method HandleKey(helper: FullScreenTable, key: byte, source: seq<Record>, datas: seq<Record>, cursor: nat,
                   ghost v: Viewport, ghost e: Env)
    returns (datas': seq<Record>, cursor': nat, render: bool)
    requires e == EnvOf(source, helper.screenHeight) && |helper.headers| == e.nbHeaders
    requires cursor == v.loaded <= |source| && datas == source[..cursor]
    requires helper.rowOffset == v.rowOffset && helper.colOffset == v.colOffset
    modifies helper`rowOffset, helper`colOffset
    ensures cursor' == Step(v, key, e).loaded <= |source| && datas' == source[..cursor']
    ensures render == Step(v, key, e).render
    ensures helper.rowOffset == Step(v, key, e).rowOffset && helper.colOffset == Step(v, key, e).colOffset
  {
    datas', cursor', render := datas, cursor, false;
    if key == KeyUp {
      var nb := helper.rowOffset + 1;
      if nb >= 0 {
        helper.SetRowOffset(nb);
        render := true;
      }
    } else if key == KeyDown {
      // load the next row: `valid`, `current` and `next` of the source cursor
      if cursor' < |source| {
        datas' := datas' + [source[cursor']];
        render := true;
      }
      cursor' := if cursor' < |source| then cursor' + 1 else cursor';
      assert source[..cursor'] == datas';
      if NbRowsToShow(helper.screenHeight) <= |datas'| {
        var nb := helper.rowOffset + 1;
        if nb < |datas'| {
          helper.SetRowOffset(nb);
          render := true;
        }
      }
    } else if key == KeyRight {
      var nb := helper.colOffset + 1;
      if nb < |helper.headers| {
        helper.SetColOffset(nb);
        render := true;
      }
    } else if key == KeyLeft {
      var nb := helper.colOffset - 1;
      if nb >= 0 {
        helper.SetColOffset(nb);
        render := true;
      }
    }
  }
}
