/** The legacy editor page: its reducer for messages from the hub (presence, session
    end, shared run output, chat with field fallbacks, and untyped document updates),
    the editor's change listener with its `isRemote` gate, and the chat panel. Every
    message it sends is appended to `sent`. */
module LegacyEditor {
  import opened Json
  import opened JsText

  /** A chat line as the panel stores it. */
  datatype ChatEntry = ChatEntry(user: Val, text: Val, time: Val)

  /** The chat normalisation: the author is the first truthy of `user` and `username`,
      otherwise "User"; the text is the first truthy of `text` and `message`,
      otherwise ""; the time is `time` when truthy, otherwise "". */
  function NormaliseChat(data: Obj): (e: ChatEntry)
    ensures Truthy(e.user)
    ensures Truthy(Get(data, "user")) ==> e.user == Get(data, "user")
    ensures !Truthy(Get(data, "user")) && Truthy(Get(data, "username")) ==>
              e.user == Get(data, "username")
    ensures !Truthy(Get(data, "user")) && !Truthy(Get(data, "username")) ==> e.user == Str("User")
    ensures Truthy(e.text) <==> Truthy(Get(data, "text")) || Truthy(Get(data, "message"))
    ensures Truthy(Get(data, "text")) ==> e.text == Get(data, "text")
    ensures !Truthy(Get(data, "text")) && Truthy(Get(data, "message")) ==> e.text == Get(data, "message")
    ensures !Truthy(Get(data, "text")) && !Truthy(Get(data, "message")) ==> e.text == Str("")
    ensures e.time == if Truthy(Get(data, "time")) then Get(data, "time") else Str("")
  {
    ChatEntry(Or(Or(Get(data, "user"), Get(data, "username")), Str("User")),
              Or(Or(Get(data, "text"), Get(data, "message")), Str("")),
              Or(Get(data, "time"), Str("")))
  }

  /** The chat message this page sends: it carries no author field. */
  function ChatMsg(text: string, time: string): Obj
  {
    map["type" := Str("chat"), "text" := Str(text), "time" := Str(time)]
  }

  /** The document message this page's change listener sends: it has no `type`. */
  function DocMsg(text: string, language: Val): Obj
  {
    map["code" := Str(text), "language" := language]
  }

  /** A chat sent by this page reaches another legacy page as authored by "User",
      with the sent text, and with the sent time unless that was empty. */
  lemma SentChatReadsAsAnonymous(text: string, time: string)
    requires text != ""
    ensures NormaliseChat(ChatMsg(text, time)) ==
              ChatEntry(Str("User"), Str(text), Str(time))
  {
    var m := ChatMsg(text, time);
    assert Get(m, "user") == Null && Get(m, "username") == Null;
    assert Get(m, "text") == Str(text);
  }

  class Page {
    var userList: Val
    var toast: string
    var reloadScheduled: bool
    var output: Val
    var execTime: Val
    var executionStatus: Val
    var chatMessages: seq<ChatEntry>
    var unread: nat
    var chatOpen: bool
    var chatInput: string
    var language: Val
    var editorMounted: bool
    var editorText: string
    var isRemote: bool
    /** The language the change listener captured when the editor was mounted. */
    var mountLanguage: Val
    var sent: seq<Obj>

    ghost predicate Valid()
      reads this`isRemote
    {
      !isRemote
    }

    constructor ()
      ensures Valid()
      ensures userList == Arr([]) && toast == "" && !reloadScheduled
      ensures output == Str("") && execTime == Null && executionStatus == Null
      ensures chatMessages == [] && unread == 0 && !chatOpen && chatInput == ""
      ensures language == Str("python") && !editorMounted && editorText == "" && sent == []
    {
      userList, toast, reloadScheduled := Arr([]), "", false;
      output, execTime, executionStatus := Str(""), Null, Null;
      chatMessages, unread, chatOpen, chatInput := [], 0, false, "";
      language, editorMounted, editorText, isRemote := Str("python"), false, "", false;
      mountLanguage, sent := Str("python"), [];
    }

    /** The change listener registered on mount: silent during a remote replace,
        otherwise it sends the whole text with the captured language. */
    method ContentChanged()
      modifies this`sent
      ensures sent == old(sent) + (if isRemote then [] else [DocMsg(editorText, mountLanguage)])
    {
      if isRemote {
        return;
      }
      sent := sent + [DocMsg(editorText, mountLanguage)];
    }

    /** The editor's `setValue`: replaces the text and fires the change listener. */
    method SetEditorValue(text: string)
      requires editorMounted
      modifies this`editorText, this`sent
      ensures editorText == text
      ensures sent == old(sent) + (if isRemote then [] else [DocMsg(text, mountLanguage)])
    {
      editorText := text;
      ContentChanged();
    }

    /** Replaces the editor text with one received from the hub, with the change
        listener silenced by `isRemote` for the duration: nothing is sent back. */
    method RemoteReplace(text: string)
      requires Valid() && editorMounted
      modifies this`editorText, this`isRemote, this`sent
      ensures Valid() && editorText == text && sent == old(sent)
    {
      isRemote := true;
      SetEditorValue(text);
      isRemote := false;
    }

    method HandleMount()
      requires Valid()
      modifies this`editorMounted, this`mountLanguage
      ensures Valid() && editorMounted && mountLanguage == language
    {
      editorMounted := true;
      mountLanguage := language;
    }

    /** The user edits the document to `text`. */
    method LocalEdit(text: string)
      requires Valid() && editorMounted
      modifies this`editorText, this`sent
      ensures Valid()
      ensures editorText == text && sent == old(sent) + [DocMsg(text, mountLanguage)]
    {
      SetEditorValue(text);
    }

    method SetChatInput(s: string)
      requires Valid()
      modifies this`chatInput
      ensures Valid() && chatInput == s
    {
      chatInput := s;
    }

    method ToggleChat()
      requires Valid()
      modifies this`chatOpen, this`unread
      ensures Valid() && chatOpen == !old(chatOpen) && unread == 0
    {
      chatOpen := !chatOpen;
      unread := 0;
    }

    /** Sends the chat input stamped with the wall-clock `time` and clears the input;
        a blank input does nothing. No local copy is kept. */
    method SendChat(time: string)
      requires Valid()
      modifies this`sent, this`chatInput
      ensures Valid()
      ensures AllSpace(old(chatInput)) ==> sent == old(sent) && chatInput == old(chatInput)
      ensures !AllSpace(old(chatInput)) ==>
                sent == old(sent) + [ChatMsg(old(chatInput), time)] && chatInput == ""
    {
      var blank := IsBlank(chatInput);
      if blank {
        return;
      }
      sent := sent + [ChatMsg(chatInput, time)];
      chatInput := "";
    }

    /** A message from the hub. `seenChatOpen` is the chat-open flag as the handler
        saw it when the connection was opened. */
    method OnMessage(data: Obj, seenChatOpen: bool)
      requires Valid()
      modifies this`userList, this`toast, this`reloadScheduled, this`output, this`execTime,
               this`executionStatus, this`chatMessages, this`unread, this`language,
               this`editorText, this`isRemote, this`sent
      ensures Valid()
      ensures sent == old(sent)
      ensures userList == if HasType(data, "users") then Get(data, "list") else old(userList)
      ensures HasType(data, "terminate") ==> toast == "Session ended" && reloadScheduled
      ensures !HasType(data, "terminate") ==>
                toast == old(toast) && reloadScheduled == old(reloadScheduled)
      ensures output == if HasType(data, "output") then Get(data, "output") else old(output)
      ensures execTime ==
                if HasType(data, "output") && Truthy(Get(data, "time")) then Get(data, "time")
                else old(execTime)
      ensures executionStatus ==
                if HasType(data, "output") && Truthy(Get(data, "status")) then Get(data, "status")
                else old(executionStatus)
      ensures HasType(data, "chat") ==>
                chatMessages == old(chatMessages) + [NormaliseChat(data)] &&
                unread == old(unread) + (if seenChatOpen then 0 else 1)
      ensures !HasType(data, "chat") ==> chatMessages == old(chatMessages) && unread == old(unread)
      ensures DocumentUpdate(data) && Truthy(Get(data, "language")) ==>
                language == Get(data, "language")
      ensures !(DocumentUpdate(data) && Truthy(Get(data, "language"))) ==> language == old(language)
      ensures DocumentUpdate(data) && editorMounted && Get(data, "code").Str? && Get(data, "code").s != "" ==>
                editorText == Get(data, "code").s
      ensures !(DocumentUpdate(data) && editorMounted && Get(data, "code").Str? && Get(data, "code").s != "") ==>
                editorText == old(editorText)
    {
      if HasType(data, "users") {
        userList := Get(data, "list");
        return;
      }
      if HasType(data, "terminate") {
        toast := "Session ended";
        reloadScheduled := true;
        return;
      }
      if HasType(data, "output") {
        output := Get(data, "output");
        if Truthy(Get(data, "time")) {
          execTime := Get(data, "time");
        }
        if Truthy(Get(data, "status")) {
          executionStatus := Get(data, "status");
        }
        return;
      }
      if HasType(data, "chat") {
        chatMessages := chatMessages + [NormaliseChat(data)];
        if !seenChatOpen {
          unread := unread + 1;
        }
        return;
      }
      DocumentChanged(data);
    }

    /** The reducer's last branch, a document update: a truthy language replaces the
        current one, and a non-empty string code replaces the editor text once the
        editor is mounted, without echoing it back. */
    method DocumentChanged(data: Obj)
      requires Valid()
      modifies this`language, this`editorText, this`isRemote, this`sent
      ensures Valid() && sent == old(sent)
      ensures language == if Truthy(Get(data, "language")) then Get(data, "language") else old(language)
      ensures editorText ==
                if editorMounted && Get(data, "code").Str? && Get(data, "code").s != "" then Get(data, "code").s
                else old(editorText)
    {
      if Truthy(Get(data, "language")) {
        language := Get(data, "language");
      }
      var code := Get(data, "code");
      if Truthy(code) && editorMounted && code.Str? {
        RemoteReplace(code.s);
      }
    }
  }

  /** A message the reducer treats as a document update: any type other than the
      four it handles, untyped messages and `init` included. */
  predicate DocumentUpdate(data: Obj)
  {
    !HasType(data, "users") && !HasType(data, "terminate") && !HasType(data, "output") &&
    !HasType(data, "chat")
  }
}
