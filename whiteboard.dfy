/** The collaborative client (the whiteboard and document page): its shape log with a
    redo stack, the mouse-driven drawing tools, the view transform, the editor mirror
    with its echo-suppression flag, the chat panel and the reducer for messages
    arriving from the hub. Every message the client sends is appended to `sent`. */
module Whiteboard {
  import opened Json
  import opened JsText
  import opened ViewTransform

  /** A shape in the log, and every `draw` message, is a JSON object whose type is
      `draw` (remote shapes are stored exactly as they arrive). */
  predicate IsShape(o: Obj)
  {
    HasType(o, "draw")
  }

  predicate AllShapes(s: seq<Obj>)
  {
    forall i :: 0 <= i < |s| ==> IsShape(s[i])
  }

  /** The object a drawing tool emits: a segment or a shape from `from` to `to`
      (world coordinates). */
  function ShapeMsg(tool: string, color: string, from: Point, to: Point): (m: Obj)
    ensures IsShape(m)
  {
    map["type" := Str("draw"), "x0" := Num(from.x), "y0" := Num(from.y),
        "x1" := Num(to.x), "y1" := Num(to.y), "color" := Str(color), "tool" := Str(tool)]
  }

  const UndoMsg: Obj := map["type" := Str("undo")]
  const ClearMsg: Obj := map["type" := Str("clear_board")]

  function CodeMsg(text: string): Obj
  {
    map["type" := Str("code"), "code" := Str(text)]
  }

  function ChatMsg(user: string, text: string, time: string): Obj
  {
    map["type" := Str("chat"), "user" := Str(user), "text" := Str(text), "time" := Str(time)]
  }

  /** Pen and eraser emit one segment per mouse move. */
  predicate FreehandTool(tool: string)
  {
    tool == "pen" || tool == "eraser"
  }

  /** Line, rectangle, circle and triangle emit one shape on mouse-up. */
  predicate ShapeTool(tool: string)
  {
    tool == "line" || tool == "rect" || tool == "circle" || tool == "triangle"
  }

  /** The toolbar's seven tools each have one behaviour: `select` pans, pen and
      eraser draw freehand, and line, rectangle, circle and triangle are shape tools;
      no tool is both freehand and a shape tool. */
  lemma ToolKinds(t: string)
    requires t in ["select", "rect", "circle", "triangle", "pen", "line", "eraser"]
    ensures t == "select" <==> !FreehandTool(t) && !ShapeTool(t)
    ensures !(FreehandTool(t) && ShapeTool(t))
  {
    assert "select"[0] != "pen"[0] && "select"[0] != "eraser"[0] && "select"[0] != "line"[0];
    assert "select"[0] != "rect"[0] && "select"[0] != "circle"[0] && "select"[0] != "triangle"[0];
    assert "pen"[0] != "line"[0] && "pen"[0] != "rect"[0] && "pen"[0] != "circle"[0] && "pen"[0] != "triangle"[0];
    assert "eraser"[0] != "line"[0] && "eraser"[0] != "rect"[0] && "eraser"[0] != "circle"[0];
    assert "eraser"[0] != "triangle"[0];
  }

  function Last<T>(s: seq<T>): T
    requires s != []
  {
    s[|s| - 1]
  }

  /** The shape log and the redo stack, whose head (index 0) is the shape the next
      redo restores. */
  datatype Board<T> = Board(shapes: seq<T>, redo: seq<T>)

  /** Local undo: removes exactly the last shape and pushes it on the front of the
      redo stack; nothing happens on an empty log. */
  function UndoStep<T>(b: Board<T>): (r: Board<T>)
    ensures b.shapes == [] ==> r == b
    ensures b.shapes != [] ==> r.shapes + [Last(b.shapes)] == b.shapes
    ensures b.shapes != [] ==> r.redo == [Last(b.shapes)] + b.redo
  {
    if b.shapes == [] then b
    else Board(b.shapes[..|b.shapes| - 1], [Last(b.shapes)] + b.redo)
  }

  /** Local redo: moves the head of the redo stack to the end of the log; nothing
      happens on an empty redo stack. */
  function RedoStep<T>(b: Board<T>): (r: Board<T>)
    ensures b.redo == [] ==> r == b
    ensures b.redo != [] ==> r.shapes == b.shapes + [b.redo[0]]
    ensures b.redo != [] ==> [b.redo[0]] + r.redo == b.redo
  {
    if b.redo == [] then b
    else Board(b.shapes + [b.redo[0]], b.redo[1..])
  }

  function UndoTimes<T>(b: Board<T>, k: nat): Board<T>
    decreases k
  {
    if k == 0 then b else UndoTimes(UndoStep(b), k - 1)
  }

  function RedoTimes<T>(b: Board<T>, k: nat): Board<T>
  {
    if k == 0 then b else RedoStep(RedoTimes(b, k - 1))
  }

  /** k undos remove the last k shapes, most recent first onto the redo stack. */
  lemma {:induction false} UndoTimesTakesSuffix<T>(b: Board<T>, k: nat)
    requires k <= |b.shapes|
    ensures UndoTimes(b, k).shapes == b.shapes[..|b.shapes| - k]
    ensures UndoTimes(b, k).redo == b.shapes[|b.shapes| - k..] + b.redo
    decreases k
  {
    if k > 0 {
      var n := |b.shapes|;
      UndoTimesTakesSuffix(UndoStep(b), k - 1);
      assert UndoStep(b).shapes == b.shapes[..n - 1];
      assert b.shapes[..n - 1][..n - 1 - (k - 1)] == b.shapes[..n - k];
      assert b.shapes[..n - 1][n - 1 - (k - 1)..] + [b.shapes[n - 1]] == b.shapes[n - k..];
    }
  }

  /** k redos move the first k entries of the redo stack, in order, to the end of
      the log. */
  lemma {:induction false} RedoTimesTakesPrefix<T>(b: Board<T>, k: nat)
    requires k <= |b.redo|
    ensures RedoTimes(b, k).shapes == b.shapes + b.redo[..k]
    ensures RedoTimes(b, k).redo == b.redo[k..]
    decreases k
  {
    if k > 0 {
      RedoTimesTakesPrefix(b, k - 1);
      var c := RedoTimes(b, k - 1);
      assert c.redo[0] == b.redo[k - 1];
      assert b.shapes + b.redo[..k - 1] + [b.redo[k - 1]] == b.shapes + b.redo[..k];
      assert c.redo[1..] == b.redo[k..];
    }
  }

  /** k undos followed by k redos give back the board exactly, shape order and redo
      stack included. */
  lemma UndoThenRedo<T>(b: Board<T>, k: nat)
    requires k <= |b.shapes|
    ensures RedoTimes(UndoTimes(b, k), k) == b
  {
    var n := |b.shapes|;
    UndoTimesTakesSuffix(b, k);
    var c := UndoTimes(b, k);
    RedoTimesTakesPrefix(c, k);
    assert c.redo[..k] == b.shapes[n - k..];
    assert c.shapes + c.redo[..k] == b.shapes;
    assert c.redo[k..] == b.redo;
  }

  /** The board part of the reducer for messages from the hub: a `draw` is appended
      as it arrived, an `undo` drops the last shape (none on an empty log) and keeps
      the redo stack, a `clear_board` empties both, and anything else leaves the board. */
  function ApplyRemote(b: Board<Obj>, data: Obj): (r: Board<Obj>)
    ensures HasType(data, "draw") ==> r.shapes == b.shapes + [data] && r.redo == b.redo
    ensures HasType(data, "undo") ==>
              r.redo == b.redo && (b.shapes == [] ==> r.shapes == []) &&
              (b.shapes != [] ==> r.shapes + [Last(b.shapes)] == b.shapes)
    ensures HasType(data, "clear_board") ==> r.shapes == [] && r.redo == []
    ensures !HasType(data, "draw") && !HasType(data, "undo") && !HasType(data, "clear_board") ==> r == b
  {
    TagsDiffer();
    if HasType(data, "draw") then Board(b.shapes + [data], b.redo)
    else if HasType(data, "undo") then
      Board(if b.shapes == [] then [] else b.shapes[..|b.shapes| - 1], b.redo)
    else if HasType(data, "clear_board") then Board([], [])
    else b
  }

  /** The shape log a receiver reaches by applying `msgs` in order. A run of `draw`
      messages is appended to the log as it is, in order. */
  function Replay(shapes: seq<Obj>, msgs: seq<Obj>): (r: seq<Obj>)
    ensures AllShapes(msgs) ==> r == shapes + msgs
    decreases |msgs|
  {
    if msgs == [] then shapes
    else
      var next := ApplyRemote(Board(shapes, []), msgs[0]).shapes;
      assert AllShapes(msgs) ==>
               IsShape(msgs[0]) && AllShapes(msgs[1..]) && shapes + [msgs[0]] + msgs[1..] == shapes + msgs;
      Replay(next, msgs[1..])
  }

  /** A local action that went from log `s0` and outbox `m0` to `s1` and `m1` left
      the sender's log equal to what a receiver holding `s0` reaches by applying the
      messages sent. */
  ghost predicate InStep(s0: seq<Obj>, m0: seq<Obj>, s1: seq<Obj>, m1: seq<Obj>)
  {
    |m0| <= |m1| && m1[..|m0|] == m0 && s1 == Replay(s0, m1[|m0|..])
  }

  /** A receiver applying the messages of several steps one after another reaches
      the sender's log: in-step actions compose. */
  lemma {:induction false} ReplayConcat(s: seq<Obj>, a: seq<Obj>, b: seq<Obj>)
    ensures Replay(s, a + b) == Replay(Replay(s, a), b)
    decreases |a|
  {
    if a != [] {
      assert (a + b)[1..] == a[1..] + b;
      ReplayConcat(ApplyRemote(Board(s, []), a[0]).shapes, a[1..], b);
    } else {
      assert a + b == b;
    }
  }

  /** Sending nothing keeps the log in step. */
  lemma InStepNone(s: seq<Obj>, m: seq<Obj>)
    ensures InStep(s, m, s, m)
  {
    assert m[..|m|] == m && m[|m|..] == [];
  }

  /** Sending one message keeps the sender in step when its log moves as the remote
      reducer moves it. */
  lemma InStepOne(s: seq<Obj>, m: seq<Obj>, msg: Obj)
    ensures InStep(s, m, ApplyRemote(Board(s, []), msg).shapes, m + [msg])
  {
    assert (m + [msg])[..|m|] == m && (m + [msg])[|m|..] == [msg] && [msg][1..] == [];
  }

  /** Sending a message the remote reducer ignores keeps an unchanged log in step. */
  lemma InStepIgnored(s: seq<Obj>, m: seq<Obj>, msg: Obj)
    requires !HasType(msg, "draw") && !HasType(msg, "undo") && !HasType(msg, "clear_board")
    ensures InStep(s, m, s, m + [msg])
  {
    InStepOne(s, m, msg);
  }

  /** The board message types differ from each other and from the chat and code
      types. */
  lemma TagsDiffer()
    ensures "draw" != "undo" && "draw" != "clear_board" && "undo" != "clear_board"
    ensures "chat" != "draw" && "chat" != "undo" && "chat" != "clear_board"
    ensures "code" != "draw" && "code" != "undo" && "code" != "clear_board"
  {
    assert "draw"[0] != "undo"[0] && "draw"[0] != "clear_board"[0] && "undo"[0] != "clear_board"[0];
    assert "chat"[0] != "draw"[0] && "chat"[0] != "undo"[0] && "chat"[1] != "clear_board"[1];
    assert "code"[0] != "draw"[0] && "code"[0] != "undo"[0] && "code"[1] != "clear_board"[1];
  }

  lemma {:induction false} InStepTrans(s0: seq<Obj>, m0: seq<Obj>, s1: seq<Obj>, m1: seq<Obj>,
                                      s2: seq<Obj>, m2: seq<Obj>)
    requires InStep(s0, m0, s1, m1) && InStep(s1, m1, s2, m2)
    ensures InStep(s0, m0, s2, m2)
  {
    assert m2[|m0|..] == m1[|m0|..] + m2[|m1|..] by {
      assert m2[..|m1|] == m1;
    }
    ReplayConcat(s0, m1[|m0|..], m2[|m1|..]);
  }

  /** The remote reducer undoes a local undo, redo and clear exactly as the sender
      did: the message each sends turns the sender's old log into its new log. */
  lemma LocalBoardActionsMatchRemote(b: Board<Obj>)
    requires AllShapes(b.redo)
    ensures b.shapes != [] ==> ApplyRemote(b, UndoMsg).shapes == UndoStep(b).shapes
    ensures b.redo != [] ==> ApplyRemote(b, b.redo[0]).shapes == RedoStep(b).shapes
    ensures ApplyRemote(b, ClearMsg) == Board([], [])
  {
    if b.redo != [] {
      assert IsShape(b.redo[0]);
    }
  }

  class Client {
    var shapes: seq<Obj>
    var redoStack: seq<Obj>
    var scale: real
    var offset: Point
    var tool: string
    var brushColor: string
    // mouse refs
    var isDrawing: bool
    var currentPos: Point
    var startPos: Point
    var isPanning: bool
    var lastMousePos: Point
    // editor mirror
    var editorMounted: bool
    var editorText: string
    var isRemote: bool
    var language: Val
    // presence and chat
    var userList: Val
    var chatMessages: seq<Obj>
    var chatInput: string
    var chatOpen: bool
    var unread: nat
    var username: string
    var reloaded: bool
    /** Every message this client has sent to the hub, in order. */
    var sent: seq<Obj>

    function BoardState(): Board<Obj>
      reads this`shapes, this`redoStack
    {
      Board(shapes, redoStack)
    }

    function CurrentView(): View
      reads this`scale, this`offset
    {
      View(scale, offset)
    }

    /** Between events: the scale is within its clamp range, `isRemote` is down, and
        the log and the redo stack hold only shapes. */
    ghost predicate Valid()
      reads this`scale, this`offset, this`isRemote, this`shapes, this`redoStack
    {
      InRange(CurrentView()) && !isRemote && AllShapes(shapes) && AllShapes(redoStack)
    }

    /** A client that has just connected as `name`. */
    constructor (name: string)
      ensures Valid()
      ensures BoardState() == Board([], []) && CurrentView() == Home
      ensures tool == "pen" && brushColor == "#020617" && !isDrawing && !isPanning
      ensures !editorMounted && editorText == "" && language == Str("python")
      ensures chatMessages == [] && chatInput == "" && !chatOpen && unread == 0
      ensures username == name && !reloaded && sent == []
    {
      shapes, redoStack := [], [];
      scale, offset := 1.0, Point(0.0, 0.0);
      tool, brushColor := "pen", "#020617";
      isDrawing, currentPos, startPos := false, Point(0.0, 0.0), Point(0.0, 0.0);
      isPanning, lastMousePos := false, Point(0.0, 0.0);
      editorMounted, editorText, isRemote, language := false, "", false, Str("python");
      userList, chatMessages, chatInput, chatOpen, unread := Arr([]), [], "", false, 0;
      username, reloaded, sent := name, false, [];
    }

    /** Mouse wheel at screen point `mouse`; `factor` is the positive zoom factor the
        wheel delta gives. */
    method Wheel(mouse: Point, factor: real)
      requires Valid()
      modifies this`scale, this`offset
      ensures Valid()
      ensures CurrentView() == Zoom(old(CurrentView()), mouse, factor)
      ensures ToWorld(CurrentView(), mouse) == ToWorld(old(CurrentView()), mouse)
    {
      var v := Zoom(View(scale, offset), mouse, factor);
      scale, offset := v.scale, v.offset;
    }

    /** The "reset view" button. */
    method ResetView()
      requires Valid()
      modifies this`scale, this`offset
      ensures Valid() && CurrentView() == Home
    {
      scale, offset := 1.0, Point(0.0, 0.0);
    }

    method SelectTool(t: string)
      requires Valid()
      modifies this`tool
      ensures Valid() && tool == t
    {
      tool := t;
    }

    /** Mouse-down at screen point `p`: the select tool starts a pan; any other tool
        starts drawing at the world point under the mouse and discards the redo
        stack. */
    method MouseDown(p: Point)
      requires Valid()
      modifies this`isPanning, this`lastMousePos, this`redoStack, this`isDrawing,
               this`startPos, this`currentPos
      ensures Valid()
      ensures tool == "select" ==>
                isPanning && lastMousePos == p && redoStack == old(redoStack) &&
                isDrawing == old(isDrawing) && startPos == old(startPos) &&
                currentPos == old(currentPos)
      ensures tool != "select" ==>
                redoStack == [] && isDrawing && startPos == ToWorld(CurrentView(), p) &&
                currentPos == startPos &&
                isPanning == old(isPanning) && lastMousePos == old(lastMousePos)
    {
      if tool == "select" {
        isPanning := true;
        lastMousePos := p;
        return;
      }
      var world := ToWorld(View(scale, offset), p);
      redoStack := [];
      isDrawing := true;
      startPos := world;
      currentPos := world;
    }

    /** Mouse-move to screen point `p`: pans while panning; with pen or eraser
        while drawing, adds and sends one segment from the previous point. */
    method MouseMove(p: Point)
      requires Valid()
      modifies this`offset, this`lastMousePos, this`shapes, this`sent, this`currentPos
      ensures Valid()
      ensures InStep(old(shapes), old(sent), shapes, sent)
      ensures isPanning ==>
                CurrentView() == Pan(old(CurrentView()), old(lastMousePos), p) &&
                lastMousePos == p && shapes == old(shapes) && sent == old(sent) &&
                currentPos == old(currentPos)
      ensures !isPanning ==> offset == old(offset) && lastMousePos == old(lastMousePos)
      ensures !isPanning && isDrawing && FreehandTool(tool) ==>
                var seg := ShapeMsg(tool, brushColor, old(currentPos), ToWorld(CurrentView(), p));
                shapes == old(shapes) + [seg] && sent == old(sent) + [seg] &&
                currentPos == ToWorld(CurrentView(), p)
      ensures !isPanning && !(isDrawing && FreehandTool(tool)) ==>
                shapes == old(shapes) && sent == old(sent) && currentPos == old(currentPos)
    {
      InStepNone(shapes, sent);
      if isPanning {
        var v := Pan(View(scale, offset), lastMousePos, p);
        offset := v.offset;
        lastMousePos := p;
        return;
      }
      if !isDrawing {
        return;
      }
      var world := ToWorld(View(scale, offset), p);
      if FreehandTool(tool) {
        var seg := ShapeMsg(tool, brushColor, currentPos, world);
        InStepOne(shapes, sent, seg);
        shapes := shapes + [seg];
        sent := sent + [seg];
        currentPos := world;
      }
    }

    /** Mouse-up at screen point `p`: a shape tool adds and sends one shape from the
        mouse-down point; drawing and panning stop. */
    method MouseUp(p: Point)
      requires Valid()
      modifies this`shapes, this`sent, this`isPanning, this`isDrawing
      ensures Valid()
      ensures InStep(old(shapes), old(sent), shapes, sent)
      ensures !isPanning && !isDrawing
      ensures old(isDrawing) && ShapeTool(tool) ==>
                var shape := ShapeMsg(tool, brushColor, startPos, ToWorld(CurrentView(), p));
                shapes == old(shapes) + [shape] && sent == old(sent) + [shape]
      ensures !(old(isDrawing) && ShapeTool(tool)) ==> shapes == old(shapes) && sent == old(sent)
    {
      InStepNone(shapes, sent);
      if isDrawing {
        var world := ToWorld(View(scale, offset), p);
        if ShapeTool(tool) {
          var shape := ShapeMsg(tool, brushColor, startPos, world);
          InStepOne(shapes, sent, shape);
          shapes := shapes + [shape];
          sent := sent + [shape];
        }
      }
      isPanning := false;
      isDrawing := false;
    }

    /** The pointer leaving the canvas ends a drawing gesture (not a pan). */
    method MouseOut()
      requires Valid()
      modifies this`isDrawing
      ensures Valid() && !isDrawing
    {
      isDrawing := false;
    }

    method Undo()
      requires Valid()
      modifies this`shapes, this`redoStack, this`sent
      ensures Valid()
      ensures BoardState() == UndoStep(old(BoardState()))
      ensures sent == old(sent) + (if old(shapes) == [] then [] else [UndoMsg])
      ensures InStep(old(shapes), old(sent), shapes, sent)
    {
      InStepNone(shapes, sent);
      if |shapes| == 0 {
        return;
      }
      TagsDiffer();
      InStepOne(shapes, sent, UndoMsg);
      var lastShape := shapes[|shapes| - 1];
      redoStack := [lastShape] + redoStack;
      shapes := shapes[..|shapes| - 1];
      sent := sent + [UndoMsg];
    }

    method Redo()
      requires Valid()
      modifies this`shapes, this`redoStack, this`sent
      ensures Valid()
      ensures BoardState() == RedoStep(old(BoardState()))
      ensures sent == old(sent) + (if old(redoStack) == [] then [] else [old(redoStack)[0]])
      ensures InStep(old(shapes), old(sent), shapes, sent)
    {
      InStepNone(shapes, sent);
      if |redoStack| == 0 {
        return;
      }
      var nextShape := redoStack[0];
      assert IsShape(nextShape);
      InStepOne(shapes, sent, nextShape);
      redoStack := redoStack[1..];
      shapes := shapes + [nextShape];
      sent := sent + [nextShape];
    }

    method ClearBoard()
      requires Valid()
      modifies this`shapes, this`redoStack, this`sent
      ensures Valid()
      ensures BoardState() == Board([], []) && sent == old(sent) + [ClearMsg]
      ensures InStep(old(shapes), old(sent), shapes, sent)
    {
      TagsDiffer();
      InStepOne(shapes, sent, ClearMsg);
      shapes, redoStack := [], [];
      sent := sent + [ClearMsg];
    }

    /** The editor's content-change listener registered on mount: it sends the whole
        text unless the change is a remote replace. */
    method ContentChanged()
      modifies this`sent
      ensures sent == old(sent) + (if isRemote then [] else [CodeMsg(editorText)])
    {
      if !isRemote {
        sent := sent + [CodeMsg(editorText)];
      }
    }

    /** The editor's `setValue`: replaces the text and fires the change listener. */
    method SetEditorValue(text: string)
      requires editorMounted
      modifies this`editorText, this`sent
      ensures editorText == text
      ensures sent == old(sent) + (if isRemote then [] else [CodeMsg(text)])
    {
      editorText := text;
      ContentChanged();
    }

    /** Replaces the editor text with one received from the hub, with the change
        listener silenced by `isRemote` for the duration: nothing is sent back. */
    method RemoteReplace(text: string)
      requires Valid() && editorMounted
      modifies this`editorText, this`isRemote, this`sent
      ensures Valid() && editorText == text && sent == old(sent)
    {
      isRemote := true;
      SetEditorValue(text);
      isRemote := false;
    }

    method HandleMount()
      requires Valid()
      modifies this`editorMounted
      ensures Valid() && editorMounted
    {
      editorMounted := true;
    }

    /** The user edits the document to `text`: every change is sent at once. */
    method LocalEdit(text: string)
      requires Valid() && editorMounted
      modifies this`editorText, this`sent
      ensures Valid()
      ensures editorText == text && sent == old(sent) + [CodeMsg(text)]
      ensures InStep(shapes, old(sent), shapes, sent)
    {
      assert Get(CodeMsg(text), "type") == Str("code");
      TagsDiffer();
      InStepIgnored(shapes, sent, CodeMsg(text));
      SetEditorValue(text);
    }

    method SetChatInput(s: string)
      requires Valid()
      modifies this`chatInput
      ensures Valid() && chatInput == s
    {
      chatInput := s;
    }

    /** Sends the chat input stamped with the wall-clock `time`, keeps a local copy
        and clears the input; a blank input does nothing. */
    method SendChatMessage(time: string)
      requires Valid()
      modifies this`sent, this`chatMessages, this`chatInput
      ensures Valid()
      ensures AllSpace(old(chatInput)) ==>
                sent == old(sent) && chatMessages == old(chatMessages) && chatInput == old(chatInput)
      ensures !AllSpace(old(chatInput)) ==>
                var msg := ChatMsg(username, old(chatInput), time);
                sent == old(sent) + [msg] && chatMessages == old(chatMessages) + [msg] &&
                chatInput == ""
      ensures InStep(shapes, old(sent), shapes, sent)
    {
      var blank := IsBlank(chatInput);
      InStepNone(shapes, sent);
      if blank {
        return;
      }
      var msg := ChatMsg(username, chatInput, time);
      assert Get(msg, "type") == Str("chat");
      TagsDiffer();
      InStepIgnored(shapes, sent, msg);
      sent := sent + [msg];
      chatMessages := chatMessages + [msg];
      chatInput := "";
    }

    method ToggleChat()
      requires Valid()
      modifies this`chatOpen, this`unread
      ensures Valid() && chatOpen == !old(chatOpen) && unread == 0
    {
      chatOpen := !chatOpen;
      unread := 0;
    }

    /** A message from the hub. `seenName` and `seenChatOpen` are the user name and
        chat-open flag as the handler saw them when the connection was opened. */
    method OnMessage(data: Obj, seenName: string, seenChatOpen: bool)
      requires Valid()
      modifies this`userList, this`shapes, this`redoStack, this`editorText, this`isRemote,
               this`language, this`reloaded, this`chatMessages, this`unread, this`sent
      ensures Valid()
      ensures sent == old(sent)
      ensures BoardState() == ApplyRemote(old(BoardState()), data)
      ensures HasType(data, "users") ==> userList == Get(data, "list")
      ensures !HasType(data, "users") ==> userList == old(userList)
      ensures HasType(data, "code") && editorMounted && Get(data, "code").Str? ==>
                editorText == Get(data, "code").s
      ensures !(HasType(data, "code") && editorMounted && Get(data, "code").Str?) ==>
                editorText == old(editorText)
      ensures HasType(data, "language") ==> language == Get(data, "language")
      ensures !HasType(data, "language") ==> language == old(language)
      ensures reloaded == (old(reloaded) || HasType(data, "terminate"))
      ensures HasType(data, "chat") && Get(data, "user") != Str(seenName) ==>
                chatMessages == old(chatMessages) + [data] &&
                unread == old(unread) + (if seenChatOpen then 0 else 1)
      ensures !(HasType(data, "chat") && Get(data, "user") != Str(seenName)) ==>
                chatMessages == old(chatMessages) && unread == old(unread)
    {
      if HasType(data, "users") {
        userList := Get(data, "list");
      } else if HasType(data, "draw") {
        shapes := shapes + [data];
      } else if HasType(data, "undo") {
        shapes := if shapes == [] then [] else shapes[..|shapes| - 1];
      } else if HasType(data, "clear_board") {
        shapes, redoStack := [], [];
      } else if HasType(data, "code") {
        if editorMounted {
          var code := Get(data, "code");
          if code.Str? && editorText != code.s {
            RemoteReplace(code.s);
          }
        }
      } else if HasType(data, "language") {
        language := Get(data, "language");
      } else if HasType(data, "terminate") {
        reloaded := true;
      } else if HasType(data, "chat") {
        if Get(data, "user") != Str(seenName) {
          chatMessages := chatMessages + [data];
          if !seenChatOpen {
            unread := unread + 1;
          }
        }
      }
    }
  }

  /** A rectangle dragged from (10, 10) to (50, 40) on a fresh board at the home
      view: the drawer's board and its outgoing messages are exactly that shape. */
  method DrawRectangle() returns (a: Client, rect: Obj)
    ensures rect == ShapeMsg("rect", "#020617", Point(10.0, 10.0), Point(50.0, 40.0))
    ensures a.shapes == [rect] && a.sent == [rect]
  {
    a := new Client("alice");
    a.SelectTool("rect");
    assert ToWorld(Home, Point(10.0, 10.0)) == Point(10.0, 10.0);
    assert ToWorld(Home, Point(50.0, 40.0)) == Point(50.0, 40.0);
    a.MouseDown(Point(10.0, 10.0));
    assert a.startPos == Point(10.0, 10.0) && a.isDrawing && a.CurrentView() == Home;
    rect := ShapeMsg("rect", "#020617", Point(10.0, 10.0), Point(50.0, 40.0));
    assert rect == ShapeMsg(a.tool, a.brushColor, a.startPos, ToWorld(a.CurrentView(), Point(50.0, 40.0)));
    a.MouseUp(Point(50.0, 40.0));
  }

  /** The rectangle drawn above arrives at a fresh peer as its only shape. */
  method RectangleReachesPeer() returns (peerShapes: seq<Obj>)
    ensures peerShapes == [ShapeMsg("rect", "#020617", Point(10.0, 10.0), Point(50.0, 40.0))]
  {
    var a, rect := DrawRectangle();
    var b := new Client("bob");
    assert IsShape(rect) && !HasType(rect, "undo") && !HasType(rect, "clear_board");
    b.OnMessage(a.sent[0], "bob", false);
    peerShapes := b.shapes;
  }
}
