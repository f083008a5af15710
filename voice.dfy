/** The voice widget (client/src/components/VoiceRoom.jsx): `joined` and
    `localTrack`, changed by `joinChannel` (token fetch, `client.join`,
    microphone track, publish — each awaited, each able to throw) and by
    `leaveChannel`. How each SDK step ends is an input. The calls the widget makes
    on the outside world are recorded in order, together with the alerts it
    raises, so that the order of the steps can be stated. */
module Voice {
  import opened Wrappers
  import opened JsonValues
  import Server

  const Channel := "mindease_room"
  const JoinFailedAlert := "Failed to join voice session."

  /** A local microphone track handed out by the SDK. */
  datatype Track = Track(id: nat)

  /** The GET of /agora-token: the `appId` and `token` of the answer, or an
      exception (network error or non-2xx status). */
  datatype TokenFetch = TokenFetched(appId: Option<string>, token: Option<string>) | TokenFetchFailed

  /** `AgoraRTC.createMicrophoneAudioTrack()`: a track, or an exception. */
  datatype MicOutcome = MicCreated(track: Track) | MicFailed

  /** How each awaited step of `joinChannel` ends, in the order they run. */
  datatype JoinSteps = JoinSteps(fetch: TokenFetch, clientJoinOk: bool, mic: MicOutcome, publishOk: bool)

  /** A request the widget makes of the outside world. */
  datatype Call =
    | RequestToken(channel: string)
    | ClientJoin(appId: Option<string>, channel: string, token: Option<string>)
    | CreateMicrophone
    | Publish(track: Track)
    | ClientLeave
    | StopTrack(track: Track)
    | CloseTrack(track: Track)

  datatype VoiceState = VoiceState(joined: bool, localTrack: Option<Track>, calls: seq<Call>, alerts: seq<string>)

  /** Mounting: not joined, no track. */
  const Start := VoiceState(false, None, [], [])

  /** Whether step `i` of a join (0 token fetch, 1 `client.join`, 2 microphone,
      3 publish) succeeded. */
  predicate StepOk(steps: JoinSteps, i: nat) {
    if i == 0 then steps.fetch.TokenFetched?
    else if i == 1 then steps.clientJoinOk
    else if i == 2 then steps.mic.MicCreated?
    else steps.publishOk
  }

  predicate JoinSucceeds(steps: JoinSteps) {
    StepOk(steps, 0) && StepOk(steps, 1) && StepOk(steps, 2) && StepOk(steps, 3)
  }

  /** `joinChannel`. Each step is attempted only when every step before it
      succeeded: the first call is always the token request for the fixed
      channel, and the attempt stops at the first failing step. The widget
      becomes joined, with the published track as its local track, only when
      all four steps succeed; otherwise `joined` and `localTrack` keep their
      values and one alert is raised. */
  function Join(vs: VoiceState, steps: JoinSteps): (r: VoiceState)
    ensures |vs.calls| < |r.calls| <= |vs.calls| + 4 && r.calls[..|vs.calls|] == vs.calls
    ensures r.calls[|vs.calls|] == RequestToken(Channel)
    ensures forall i: nat | i < |r.calls| - |vs.calls| - 1 :: StepOk(steps, i)
    ensures |r.calls| - |vs.calls| < 4 ==> !StepOk(steps, |r.calls| - |vs.calls| - 1)
    ensures r.joined == (vs.joined || JoinSucceeds(steps))
    ensures JoinSucceeds(steps) ==>
      && r.localTrack == Some(steps.mic.track)
      && r.alerts == vs.alerts
      && r.calls == vs.calls + [RequestToken(Channel),
                                ClientJoin(steps.fetch.appId, Channel, steps.fetch.token),
                                CreateMicrophone, Publish(steps.mic.track)]
    ensures !JoinSucceeds(steps) ==>
      r.localTrack == vs.localTrack && r.alerts == vs.alerts + [JoinFailedAlert]
  {
    var failed := vs.(alerts := vs.alerts + [JoinFailedAlert]);
    var c0 := vs.calls + [RequestToken(Channel)];
    match steps.fetch
    case TokenFetchFailed => failed.(calls := c0)
    case TokenFetched(appId, token) =>
      var c1 := c0 + [ClientJoin(appId, Channel, token)];
      if !steps.clientJoinOk then failed.(calls := c1)
      else
        var c2 := c1 + [CreateMicrophone];
        match steps.mic
        case MicFailed => failed.(calls := c2)
        case MicCreated(track) =>
          var c3 := c2 + [Publish(track)];
          if !steps.publishOk then failed.(calls := c3)
          else vs.(calls := c3, localTrack := Some(track), joined := true)
  }

  /** `leaveChannel`. `client.leave` is always called first; only if it
      succeeds is the track (when there is one) stopped, then closed, and
      `joined` cleared. The track is never forgotten: `localTrack` keeps its
      value either way. */
  function Leave(vs: VoiceState, leaveOk: bool): (r: VoiceState)
    ensures |r.calls| > |vs.calls| && r.calls[..|vs.calls|] == vs.calls
    ensures r.calls[|vs.calls|] == ClientLeave
    ensures leaveOk && vs.localTrack.Some? ==>
      r.calls == vs.calls + [ClientLeave, StopTrack(vs.localTrack.value), CloseTrack(vs.localTrack.value)]
    ensures !leaveOk || vs.localTrack.None? ==> r.calls == vs.calls + [ClientLeave]
    ensures r.joined == (vs.joined && !leaveOk)
    ensures r.localTrack == vs.localTrack && r.alerts == vs.alerts
  {
    var afterLeave := vs.calls + [ClientLeave];
    if !leaveOk then vs.(calls := afterLeave)
    else
      match vs.localTrack
      case None => vs.(calls := afterLeave, joined := false)
      case Some(t) => vs.(calls := afterLeave + [StopTrack(t), CloseTrack(t)], joined := false)
  }

  /** The single button the widget shows. */
  datatype Control = JoinButton | LeaveButton

  /** Join is offered exactly when not joined, leave exactly when joined. */
  function ControlFor(joined: bool): (c: Control)
    ensures c == JoinButton <==> !joined
    ensures c == LeaveButton <==> joined
  {
    if !joined then JoinButton else LeaveButton
  }

  /** A click on whichever button is shown, with how its steps end. */
  datatype Click = ClickJoin(steps: JoinSteps) | ClickLeave(leaveOk: bool)

  /** A click on a button that is not shown does nothing. */
  function Press(vs: VoiceState, click: Click): VoiceState {
    match click
    case ClickJoin(steps) => if ControlFor(vs.joined) == JoinButton then Join(vs, steps) else vs
    case ClickLeave(ok) => if ControlFor(vs.joined) == LeaveButton then Leave(vs, ok) else vs
  }

  function RunClicks(vs: VoiceState, clicks: seq<Click>): VoiceState
    decreases |clicks|
  {
    if clicks == [] then vs else RunClicks(Press(vs, clicks[0]), clicks[1..])
  }

  /** While joined there is always a local track to stop. */
  ghost predicate TrackWhileJoined(vs: VoiceState) {
    vs.joined ==> vs.localTrack.Some?
  }

  /** Over any sequence of clicks: whenever the widget is joined it holds a
      track; an alert is raised only by a join attempt, so there are never more
      alerts than token requests; and the record of calls only grows. */
  lemma {:induction false} ClickInvariants(vs: VoiceState, clicks: seq<Click>)
    requires TrackWhileJoined(vs)
    requires |vs.alerts| <= Count(vs.calls, RequestToken(Channel))
    ensures TrackWhileJoined(RunClicks(vs, clicks))
    ensures |RunClicks(vs, clicks).alerts| <= Count(RunClicks(vs, clicks).calls, RequestToken(Channel))
    ensures vs.calls <= RunClicks(vs, clicks).calls
    decreases |clicks|
  {
    if clicks != [] {
      var next := Press(vs, clicks[0]);
      if clicks[0].ClickJoin? && !vs.joined {
        var added := next.calls[|vs.calls|..];
        assert next.calls == vs.calls + added;
        CountAppend(vs.calls, added, RequestToken(Channel));
        assert added[0] == RequestToken(Channel);
        assert Count(added, RequestToken(Channel)) >= 1;
      } else if clicks[0].ClickLeave? && vs.joined {
        var added := next.calls[|vs.calls|..];
        assert next.calls == vs.calls + added;
        CountAppend(vs.calls, added, RequestToken(Channel));
      }
      ClickInvariants(next, clicks[1..]);
      assert next.calls[..|vs.calls|] == vs.calls;
    }
  }

  /** The number of occurrences of `c` in `calls`. */
  function Count(calls: seq<Call>, c: Call): nat {
    if calls == [] then 0 else (if calls[0] == c then 1 else 0) + Count(calls[1..], c)
  }

  lemma {:induction false} CountAppend(a: seq<Call>, b: seq<Call>, c: Call)
    ensures Count(a + b, c) == Count(a, c) + Count(b, c)
  {
    if a == [] {
      assert a + b == b;
    } else {
      assert (a + b)[1..] == a[1..] + b;
      CountAppend(a[1..], b, c);
    }
  }

  /** `res.data.appId` and `res.data.token` read as strings (anything else is
      not what the server sends). */
  function AsString(v: Option<Json>): Option<string> {
    match v
    case Some(JString(s)) => Some(s)
    case _ => None
  }

  /** The token fetch as the client sees a server response: axios rejects any
      status outside 2xx. */
  function FetchFrom(response: Server.Response): TokenFetch {
    if 200 <= response.status < 300 then
      TokenFetched(AsString(Member(Some(response.body), "appId")),
                   AsString(Member(Some(response.body), "token")))
    else TokenFetchFailed
  }

  /** The widget's fixed channel always passes the server's validation, and
      when the server signs, `client.join` is called with exactly the server's
      app id and the token the builder produced for that channel. */
  lemma JoinUsesIssuedToken(env: map<string, string>, nowMs: int, build: Server.SignArgs -> Server.Signing)
    ensures Server.TokenHandler(Some(Channel), env, nowMs, build).response.status != 400
    ensures Server.TokenHandler(Some(Channel), env, nowMs, build).signed.value.channel == Channel
    ensures var x := Server.TokenHandler(Some(Channel), env, nowMs, build);
      x.response.status == 200 ==>
        FetchFrom(x.response) ==
          TokenFetched(Server.EnvLookup(env, Server.AppIdVar), Some(build(x.signed.value).token))
  {
  }

  /** The widget's state. `calls` and `alerts` record, in order, what it
      asked of the outside world and what it showed the user. */
  class VoiceRoom {
    var joined: bool
    var localTrack: Option<Track>
    var calls: seq<Call>
    var alerts: seq<string>

    ghost function State(): VoiceState
      reads this
    {
      VoiceState(joined, localTrack, calls, alerts)
    }

    constructor ()
      ensures State() == Start
    {
      joined := false;
      localTrack := None;
      calls := [];
      alerts := [];
    }

    method JoinChannel(steps: JoinSteps)
      modifies this
      ensures State() == Join(old(State()), steps)
    {
      var channel := Channel;
      calls := calls + [RequestToken(channel)];
      if steps.fetch.TokenFetchFailed? {
        alerts := alerts + [JoinFailedAlert];
        return;
      }
      var appId, token := steps.fetch.appId, steps.fetch.token;
      calls := calls + [ClientJoin(appId, channel, token)];
      if !steps.clientJoinOk {
        alerts := alerts + [JoinFailedAlert];
        return;
      }
      calls := calls + [CreateMicrophone];
      if steps.mic.MicFailed? {
        alerts := alerts + [JoinFailedAlert];
        return;
      }
      var audioTrack := steps.mic.track;
      calls := calls + [Publish(audioTrack)];
      if !steps.publishOk {
        alerts := alerts + [JoinFailedAlert];
        return;
      }
      localTrack := Some(audioTrack);
      joined := true;
    }

    method LeaveChannel(leaveOk: bool)
      modifies this
      ensures State() == Leave(old(State()), leaveOk)
    {
      calls := calls + [ClientLeave];
      if !leaveOk {
        return;
      }
      if localTrack.Some? {
        calls := calls + [StopTrack(localTrack.value)];
        calls := calls + [CloseTrack(localTrack.value)];
      }
      joined := false;
    }
  }
}
