/** The hotkey client: it pings the daemon once at start, then turns each
    hotkey press into one request over the daemon's socket and each reply into
    a notification. The socket round trip is an outcome passed in as a value;
    the pure functions give the meaning of each handler, and the class
    `TTSHotkeyClient` updates its fields in place in agreement with them. */
module Hotkey {
  import opened Text
  import opened Collab

  /** The JSON object sent to the daemon: member name to string value. */
  type Request = map<string, string>

  /** `{'action': action, **kwargs}`. Python refuses a keyword argument named
      `action` here, so the fields never hold that key. */
  function BuildRequest(action: string, fields: map<string, string>): (r: Request)
    requires "action" !in fields
    ensures r.Keys == {"action"} + fields.Keys
    ensures r["action"] == action
    ensures forall k :: k in fields ==> r[k] == fields[k]
  {
    map["action" := action] + fields
  }

  /** The decoded reply object, as the client reads it: its `status`,
      `message` and `time` members (`time` as Python's `str()` renders it),
      `None` when absent. */
  datatype Reply = Reply(status: Option<string>, message: Option<string>, time: Option<string>)

  /** What one socket round trip did: a reply came back, the socket file was
      missing, the 30 s timeout expired, or something else raised. */
  datatype Transport = Delivered(reply: Reply) | SocketMissing | TimedOut | Failed(error: string)

  function ErrorReply(message: string): Reply
  {
    Reply(Some("error"), Some(message), None)
  }

  /** `send_request` after the round trip: every failure becomes an error
      reply, so the call always returns a reply and never raises. */
  function ReplyFor(t: Transport): Reply
  {
    match t
    case Delivered(reply) => reply
    case SocketMissing => ErrorReply("Service not running")
    case TimedOut => ErrorReply("Request timeout")
    case Failed(error) => ErrorReply(error)
  }

  datatype Notification = Notification(title: string, message: string)

  /** The notification that reports a speak reply: the time on success (0
      when absent), otherwise the message ('Unknown error' when absent). */
  function ResultNotification(r: Reply): Notification
  {
    if r.status == Some("success") then Notification("TTS", "Done! (" + r.time.GetOr("0") + "s)")
    else Notification("TTS Error", r.message.GetOr("Unknown error"))
  }

  /** What `pyperclip.paste()` did: returned the clipboard text, or raised. */
  datatype Clipboard = Pasted(text: string) | PasteFailed(error: string)

  /** A hotkey press, with the outcomes of what its handler touches. */
  datatype Press = SpeakKey(clipboard: Clipboard, transport: Transport) | QuitKey(transport: Transport)

  /** The client's fields: `running`, and the requests it sent and the
      notifications it showed, in order. */
  datatype ClientState = ClientState(running: bool, requests: seq<Request>, notifications: seq<Notification>)

  const Ping := BuildRequest("ping", map[])
  const StopRequest := BuildRequest("stop", map[])
  const Ready := Notification("TTS Ready", "Cmd+Shift+S to speak, Cmd+Shift+Q to quit")

  /** `on_speak_hotkey`. */
  function OnSpeak(s: ClientState, clip: Clipboard, t: Transport): ClientState
  {
    match clip
    case PasteFailed(e) => s.(notifications := s.notifications + [Notification("TTS Error", e)])
    case Pasted(text) =>
      if Strip(text) == [] then s.(notifications := s.notifications + [Notification("TTS", "Clipboard is empty")])
      else
        s.(requests := s.requests + [BuildRequest("speak", map["text" := text])],
           notifications := s.notifications + [Notification("TTS", "Reading text..."), ResultNotification(ReplyFor(t))])
  }

  /** `on_quit_hotkey`: the reply is read but both branches end the same way. */
  function OnQuit(s: ClientState, t: Transport): ClientState
  {
    var reply := ReplyFor(t);
    var note := if reply.status == Some("success") then Notification("TTS", "Service stopped")
                else Notification("TTS", "Service stopped");
    s.(running := false, requests := s.requests + [StopRequest], notifications := s.notifications + [note])
  }

  function OnKey(s: ClientState, key: Press): ClientState
  {
    match key
    case SpeakKey(clip, t) => OnSpeak(s, clip, t)
    case QuitKey(t) => OnQuit(s, t)
  }

  /** The listening loop: while `running`, handle the next hotkey press.
      Returns the state and the number of presses handled. */
  function Listen(s: ClientState, keys: seq<Press>, handled: nat): (ClientState, nat)
    decreases |keys|
  {
    if !s.running || keys == [] then (s, handled)
    else Listen(OnKey(s, keys[0]), keys[1..], handled + 1)
  }

  /** The result of `start`: the state, the exit status (1 when the daemon
      did not answer the ping with success) and the presses handled. */
  datatype StartResult = StartResult(state: ClientState, exitCode: int, handled: nat)

  /** `start`: ping; unless the reply is success, exit with status 1 before
      any hotkey is registered; otherwise notify and listen. */
  function Startup(s: ClientState, ping: Transport, keys: seq<Press>): StartResult
  {
    var pinged := s.(requests := s.requests + [Ping]);
    if ReplyFor(ping).status != Some("success") then StartResult(pinged, 1, 0)
    else
      var (listened, handled) := Listen(pinged.(notifications := pinged.notifications + [Ready]), keys, 0);
      StartResult(listened, 0, handled)
  }

  // ---------------------------------------------------------------------
  // What the handlers promise

  /** `send_request` never raises: a missing socket, a timeout and any other
      failure are each reported as an error reply with their own message. */
  lemma {:induction false} TransportFailuresBecomeErrors(t: Transport)
    requires !t.Delivered?
    ensures ReplyFor(t).status == Some("error")
    ensures t.SocketMissing? ==> ReplyFor(t).message == Some("Service not running")
    ensures t.TimedOut? ==> ReplyFor(t).message == Some("Request timeout")
    ensures t.Failed? ==> ReplyFor(t).message == Some(t.error)
  {
  }

  /** A reply maps to "Done! (<time>s)" on success and to "TTS Error" with its
      message otherwise ("Unknown error" when the reply has none); a failed
      round trip therefore shows its own error. */
  lemma {:induction false} SpeakReplyNotified(s: ClientState, text: string, t: Transport)
    requires !Blank(text)
    ensures var n := OnSpeak(s, Pasted(text), t).notifications;
      && |n| == |s.notifications| + 2
      && n[|n| - 2] == Notification("TTS", "Reading text...")
      && (ReplyFor(t).status == Some("success") ==> n[|n| - 1] == Notification("TTS", "Done! (" + ReplyFor(t).time.GetOr("0") + "s)"))
      && (ReplyFor(t).status != Some("success") ==> n[|n| - 1] == Notification("TTS Error", ReplyFor(t).message.GetOr("Unknown error")))
      && (t.Delivered? && t.reply.status != Some("success") && t.reply.message.None? ==> n[|n| - 1] == Notification("TTS Error", "Unknown error"))
      && (!t.Delivered? ==> n[|n| - 1] == Notification("TTS Error", ReplyFor(t).message.value))
  {
    StripBlank(text);
  }

  /** An empty or whitespace-only clipboard shows "Clipboard is empty" and
      sends no request. */
  lemma {:induction false} EmptyClipboardSendsNothing(s: ClientState, text: string, t: Transport)
    requires Blank(text)
    ensures OnSpeak(s, Pasted(text), t) == s.(notifications := s.notifications + [Notification("TTS", "Clipboard is empty")])
  {
    StripBlank(text);
  }

  /** Any other clipboard sends exactly one `speak` request carrying the whole
      clipboard text, however long. */
  lemma {:induction false} SpeakSendsWholeText(s: ClientState, text: string, t: Transport)
    requires !Blank(text)
    ensures var r := OnSpeak(s, Pasted(text), t).requests;
      && |r| == |s.requests| + 1 && r[..|s.requests|] == s.requests
      && r[|s.requests|].Keys == {"action", "text"}
      && r[|s.requests|]["action"] == "speak" && r[|s.requests|]["text"] == text
  {
    StripBlank(text);
    var req := BuildRequest("speak", map["text" := text]);
    assert req.Keys == {"action", "text"};
  }

  /** Quit sends one `stop` request and, whatever the reply, stops the
      client with the notification "Service stopped". */
  lemma {:induction false} QuitAlwaysStops(s: ClientState, t: Transport)
    ensures var q := OnQuit(s, t);
      && !q.running
      && q.requests == s.requests + [map["action" := "stop"]]
      && q.notifications == s.notifications + [Notification("TTS", "Service stopped")]
  {
    assert StopRequest.Keys == {"action"};
    assert StopRequest == map["action" := "stop"];
  }

  /** Start exits with status 1, having sent only the ping and handled no
      hotkey, exactly when the ping reply is not success. */
  lemma {:induction false} StartGate(s: ClientState, ping: Transport, keys: seq<Press>)
    ensures var r := Startup(s, ping, keys);
      && (r.exitCode == 1 <==> ReplyFor(ping).status != Some("success"))
      && (r.exitCode == 1 ==> r.handled == 0 && r.state == s.(requests := s.requests + [map["action" := "ping"]]))
  {
    assert Ping.Keys == {"action"};
    assert Ping == map["action" := "ping"];
  }

  /** The listening loop stops right after a quit press: no press after it is
      handled, and the client is no longer running. */
  lemma {:induction false} ListenStopsAtQuit(s: ClientState, keys: seq<Press>, handled: nat, k: nat)
    requires k < |keys| && keys[k].QuitKey?
    ensures Listen(s, keys, handled).1 <= handled + k + 1
    ensures !Listen(s, keys, handled).0.running
    decreases |keys|
  {
    if s.running && k > 0 {
      ListenStopsAtQuit(OnKey(s, keys[0]), keys[1..], handled + 1, k - 1);
    }
  }

  /** The loop stops before the last press only because `running` was
      cleared, and only a quit press clears it. */
  lemma {:induction false} ListenRunsWhileRunning(s: ClientState, keys: seq<Press>, handled: nat)
    ensures handled <= Listen(s, keys, handled).1 <= handled + |keys|
    ensures Listen(s, keys, handled).1 < handled + |keys| ==> !Listen(s, keys, handled).0.running
    ensures s.running && (forall i :: 0 <= i < |keys| ==> !keys[i].QuitKey?) ==>
      Listen(s, keys, handled).0.running && Listen(s, keys, handled).1 == handled + |keys|
    decreases |keys|
  {
    if s.running && keys != [] {
      ListenRunsWhileRunning(OnKey(s, keys[0]), keys[1..], handled + 1);
    }
  }

  // ---------------------------------------------------------------------
  // The client object

  class TTSHotkeyClient {
    var running: bool
    var requests: seq<Request>
    var notifications: seq<Notification>

    function Snapshot(): ClientState
      reads this
    {
      ClientState(running, requests, notifications)
    }

    constructor ()
      ensures Snapshot() == ClientState(true, [], [])
    {
      running := true;
      requests := [];
      notifications := [];
    }

    method ShowNotification(title: string, message: string)
      modifies this
      ensures Snapshot() == old(Snapshot()).(notifications := old(notifications) + [Notification(title, message)])
    {
      notifications := notifications + [Notification(title, message)];
    }

    /** `send_request`: build the request, attempt the round trip, and map
        its outcome to a reply. */
    method SendRequest(action: string, fields: map<string, string>, t: Transport) returns (r: Reply)
      requires "action" !in fields
      modifies this
      ensures Snapshot() == old(Snapshot()).(requests := old(requests) + [BuildRequest(action, fields)])
      ensures r == ReplyFor(t)
    {
      requests := requests + [map["action" := action] + fields];
      match t {
        case Delivered(reply) => r := reply;
        case SocketMissing => r := ErrorReply("Service not running");
        case TimedOut => r := ErrorReply("Request timeout");
        case Failed(error) => r := ErrorReply(error);
      }
    }

    /** `on_speak_hotkey`. */
    method OnSpeakHotkey(clip: Clipboard, t: Transport)
      modifies this
      ensures Snapshot() == OnSpeak(old(Snapshot()), clip, t)
    {
      match clip {
        case PasteFailed(e) =>
          ShowNotification("TTS Error", e);
        case Pasted(text) =>
          if Strip(text) == [] {
            ShowNotification("TTS", "Clipboard is empty");
            return;
          }
          ShowNotification("TTS", "Reading text...");
          var response := SendRequest("speak", map["text" := text], t);
          if response.status == Some("success") {
            ShowNotification("TTS", "Done! (" + response.time.GetOr("0") + "s)");
          } else {
            ShowNotification("TTS Error", response.message.GetOr("Unknown error"));
          }
      }
    }

    /** `on_quit_hotkey`. */
    method OnQuitHotkey(t: Transport)
      modifies this
      ensures Snapshot() == OnQuit(old(Snapshot()), t)
    {
      var response := SendRequest("stop", map[], t);
      if response.status == Some("success") {
        ShowNotification("TTS", "Service stopped");
      } else {
        ShowNotification("TTS", "Service stopped");
      }
      running := false;
    }

    /** `start`: the ping gate, then the loop that runs while `running`,
        handling each hotkey press in turn. */
    method Start(ping: Transport, keys: seq<Press>) returns (exitCode: int, handled: nat)
      modifies this
      ensures StartResult(Snapshot(), exitCode, handled) == Startup(old(Snapshot()), ping, keys)
    {
      var response := SendRequest("ping", map[], ping);
      if response.status != Some("success") {
        return 1, 0;
      }
      ShowNotification("TTS Ready", "Cmd+Shift+S to speak, Cmd+Shift+Q to quit");
      ghost var listening := Snapshot();
      handled := 0;
      while running && handled < |keys|
        invariant 0 <= handled <= |keys|
        invariant Listen(Snapshot(), keys[handled..], handled) == Listen(listening, keys, 0)
      {
        assert keys[handled..][1..] == keys[handled + 1..];
        match keys[handled] {
          case SpeakKey(clip, t) => OnSpeakHotkey(clip, t);
          case QuitKey(t) => OnQuitHotkey(t);
        }
        handled := handled + 1;
      }
      exitCode := 0;
    }
  }
}
