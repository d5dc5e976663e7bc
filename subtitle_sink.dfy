/**
 * The decisions of the subtitle sink element: the MIME type of the text media source made
 * from the caps, attaching that source to the media player client at most once, the
 * READY_TO_PAUSED state change, and the "mute" property.
 *
 * The media player client, the parent bin's stream counts and the base sink's handlers are
 * outside this model: what they return comes in as parameters.
 */
module SubtitleSink {
  import opened Common

  // ---------------------------------------------------------------------------
  // MIME type of the media source
  // ---------------------------------------------------------------------------

  const VttMimeType: string := "text/vtt"
  const TtmlMimeType: string := "application/ttml+xml"

  /** The MIME types the sink's caps are set up with. */
  const SupportedMimeTypes: seq<string> := [TtmlMimeType, VttMimeType]

  /** rialto_mse_subtitle_sink_create_media_source: the MIME type of the subtitle source made
      from the name of the caps' first structure, or no source when the name is null. */
  function CreateMediaSource(structureName: Option<string>): (mimeType: Option<string>)
    ensures structureName.None? <==> mimeType.None?
    ensures structureName.Some? && HasPrefix(structureName.value, VttMimeType) ==> mimeType == Some(VttMimeType)
    ensures structureName.Some? && !HasPrefix(structureName.value, VttMimeType) ==> mimeType == Some(TtmlMimeType)
  {
    match structureName
    case None => None
    case Some(name) => Some(if HasPrefix(name, VttMimeType) then VttMimeType else TtmlMimeType)
  }

  /** Every source the sink makes has one of the MIME types its caps accept, and the caps name
      "text/vtt" (or any name extending it) is the only way to get a WebVTT source. */
  lemma CreatedTypeIsSupported(structureName: Option<string>)
    ensures var m := CreateMediaSource(structureName);
            m.Some? ==> m.value in SupportedMimeTypes
    ensures CreateMediaSource(structureName) == Some(VttMimeType) <==>
            structureName.Some? && |structureName.value| >= 8 && structureName.value[..8] == "text/vtt"
  {
  }

  // ---------------------------------------------------------------------------
  // The sink pad's event handler: attach the source once
  // ---------------------------------------------------------------------------

  /** A caps event with the name of its first structure, or any other event. */
  datatype SinkEvent = CapsEvent(structureName: Option<string>) | OtherEvent

  /** What handling one event does to m_sourceAttached, and the MIME type of the source handed
      to the client's attachSource, if it was called. */
  datatype EventOutcome = EventOutcome(sourceAttached: bool, attachAttempt: Option<string>)

  /** The decision of rialto_mse_subtitle_sink_event, with the presence of a media player
      client and the result of its attachSource as inputs. */
  function OnEvent(sourceAttached: bool, event: SinkEvent, clientPresent: bool, attachSucceeds: bool): (r: EventOutcome)
    ensures sourceAttached ==> r == EventOutcome(true, None)
    ensures r.attachAttempt.Some? <==>
            !sourceAttached && event.CapsEvent? && CreateMediaSource(event.structureName).Some? && clientPresent
    ensures r.attachAttempt.Some? ==> r.attachAttempt == CreateMediaSource(event.structureName)
    ensures r.sourceAttached <==> sourceAttached || (r.attachAttempt.Some? && attachSucceeds)
  {
    if event.OtherEvent? || sourceAttached then EventOutcome(sourceAttached, None)
    else
      var source := CreateMediaSource(event.structureName);
      if source.None? || !clientPresent then EventOutcome(false, None)
      else EventOutcome(attachSucceeds, source)
  }

  /** What the client does with each event: whether it is present and whether attachSource succeeds. */
  datatype ClientBehaviour = ClientBehaviour(present: bool, attachSucceeds: bool)

  /** The number of successful attachSource calls over a sequence of events, and the flag at the end. */
  function Attaches(sourceAttached: bool, events: seq<SinkEvent>, client: seq<ClientBehaviour>): (nat, bool)
    requires |client| == |events|
    decreases |events|
  {
    if events == [] then (0, sourceAttached)
    else
      var r := OnEvent(sourceAttached, events[0], client[0].present, client[0].attachSucceeds);
      var (n, attached) := Attaches(r.sourceAttached, events[1..], client[1..]);
      (n + (if r.attachAttempt.Some? && client[0].attachSucceeds then 1 else 0), attached)
  }

  /** Attach once: whatever the events and the client do, at most one attachSource succeeds over
      the sink's life, none once a source is attached, and the flag ends true exactly when it
      started true or one did. */
  lemma {:induction false} AttachesAtMostOnce(sourceAttached: bool, events: seq<SinkEvent>, client: seq<ClientBehaviour>)
    requires |client| == |events|
    ensures var (n, attached) := Attaches(sourceAttached, events, client);
            && n + (if sourceAttached then 1 else 0) <= 1
            && (attached <==> sourceAttached || n == 1)
    decreases |events|
  {
    if events != [] {
      var r := OnEvent(sourceAttached, events[0], client[0].present, client[0].attachSucceeds);
      AttachesAtMostOnce(r.sourceAttached, events[1..], client[1..]);
    }
  }

  /** The part of RialtoMSEBaseSinkPrivate the subtitle sink's event handler updates. */
  class SinkPrivate {
    var sourceAttached: bool

    constructor ()
      ensures !sourceAttached
    {
      sourceAttached := false;
    }

    /** rialto_mse_subtitle_sink_event: baseResult is what the base sink's event handler returns
        for the event, which every event is forwarded to. */
    method HandleEvent(event: SinkEvent, clientPresent: bool, attachSucceeds: bool, baseResult: bool)
      returns (attachAttempt: Option<string>, result: bool)
      modifies this
      ensures EventOutcome(sourceAttached, attachAttempt) == OnEvent(old(sourceAttached), event, clientPresent, attachSucceeds)
      ensures result == baseResult
    {
      attachAttempt := None;
      match event {
        case CapsEvent(structureName) =>
          if !sourceAttached {
            var source := CreateMediaSource(structureName);
            if source.Some? {
              if clientPresent {
                attachAttempt := source;
              }
              if !clientPresent || !attachSucceeds {
                // "Failed to attach TEXT source"
              } else {
                sourceAttached := true;
              }
            }
          }
        case OtherEvent =>
      }
      result := baseResult;
    }
  }

  // ---------------------------------------------------------------------------
  // State change
  // ---------------------------------------------------------------------------

  datatype Transition = ReadyToPaused | OtherTransition
  datatype StateChangeReturn = Failure | Success | Async | NoPreroll

  /** The arguments of the client's setTextStreamsInfo. */
  datatype TextStreamsInfo = TextStreamsInfo(textStreams: int, isTextOnly: bool)

  /** The result, the call made on the client (if any), and whether the parent class's
      change_state ran. */
  datatype ChangeStateOutcome = ChangeStateOutcome(result: StateChangeReturn,
                                                   streamsInfo: Option<TextStreamsInfo>,
                                                   parentCalled: bool)

  /** rialto_mse_subtitle_sink_change_state. attachClientSucceeds is the media player manager's
      attachMediaPlayerClient; nText is the parent's text stream count when the parent can give
      its stream counts; clientPresent whether the manager then has a client; parentResult what
      the parent class's change_state returns. */
  function ChangeState(transition: Transition, attachClientSucceeds: bool, nText: Option<int>,
                       clientPresent: bool, parentResult: StateChangeReturn): (r: ChangeStateOutcome)
    ensures transition == OtherTransition ==> r == ChangeStateOutcome(parentResult, None, true)
    ensures transition == ReadyToPaused && (!attachClientSucceeds || !clientPresent) ==>
            r == ChangeStateOutcome(Failure, None, false)
    ensures transition == ReadyToPaused && attachClientSucceeds && clientPresent ==>
            && r.result == parentResult && r.parentCalled
            && r.streamsInfo == Some(TextStreamsInfo(GetOr(nText, 0), false))
  {
    match transition
    case OtherTransition => ChangeStateOutcome(parentResult, None, true)
    case ReadyToPaused =>
      if !attachClientSucceeds then ChangeStateOutcome(Failure, None, false)
      else
        var textStreams := if nText.Some? then nText.value else 0;
        if clientPresent then ChangeStateOutcome(parentResult, Some(TextStreamsInfo(textStreams, false)), true)
        else ChangeStateOutcome(Failure, None, false)
  }

  /** A state change fails exactly when READY_TO_PAUSED cannot attach a client or find one,
      or the parent class fails it; and the client hears of the text streams exactly when the
      parent class is asked to change state in READY_TO_PAUSED. */
  lemma ChangeStateFailure(transition: Transition, attachClientSucceeds: bool, nText: Option<int>,
                           clientPresent: bool, parentResult: StateChangeReturn)
    ensures var r := ChangeState(transition, attachClientSucceeds, nText, clientPresent, parentResult);
            && (r.result == Failure <==>
                  (transition == ReadyToPaused && (!attachClientSucceeds || !clientPresent)) || parentResult == Failure)
            && (r.streamsInfo.Some? <==> transition == ReadyToPaused && r.parentCalled)
            && (r.streamsInfo.Some? ==> !r.streamsInfo.value.isTextOnly)
  {
  }

  // ---------------------------------------------------------------------------
  // The "mute" property
  // ---------------------------------------------------------------------------

  /** The property id the sink installs "mute" with (PROP_0 is 0). */
  const PropMute: nat := 1

  /** The message a property access logs instead of completing, if any. */
  datatype Diagnostic = NoDiagnostic | SinkNotInitialised | PrivNotInitialised | MissingClient | InvalidPropertyId

  /** The value written into the GValue (if any) and the diagnostic logged. */
  datatype PropertyRead = PropertyRead(written: Option<bool>, diagnostic: Diagnostic)

  /** rialto_mse_subtitle_sink_get_property, with the presence of the sink, of its private part
      and of the media player client as inputs. */
  function GetProperty(sinkPresent: bool, privPresent: bool, propId: nat, clientPresent: bool): (r: PropertyRead)
    ensures r.written.Some? <==> sinkPresent && privPresent && propId == PropMute && clientPresent
    ensures r.written.Some? ==> r.written.value
    ensures r.written.None? <==> r.diagnostic != NoDiagnostic
  {
    if !sinkPresent then PropertyRead(None, SinkNotInitialised)
    else if !privPresent then PropertyRead(None, PrivNotInitialised)
    else if propId == PropMute then
      if !clientPresent then PropertyRead(None, MissingClient) else PropertyRead(Some(true), NoDiagnostic)
    else PropertyRead(None, InvalidPropertyId)
  }

  /** rialto_mse_subtitle_sink_set_property: it changes nothing, whatever the value; only the
      diagnostic it logs depends on its inputs. */
  function SetProperty(sinkPresent: bool, privPresent: bool, propId: nat, clientPresent: bool, value: bool): (r: Diagnostic)
    ensures r == NoDiagnostic <==> sinkPresent && privPresent && propId == PropMute && clientPresent
  {
    if !sinkPresent then SinkNotInitialised
    else if !privPresent then PrivNotInitialised
    else if propId == PropMute then (if !clientPresent then MissingClient else NoDiagnostic)
    else InvalidPropertyId
  }

  /** Getting and setting a property check the same things in the same order, so they log the
      same diagnostic; and since setting stores nothing, "mute" reads true after setting it to
      either value. */
  lemma GetAfterSet(sinkPresent: bool, privPresent: bool, propId: nat, clientPresent: bool, value: bool)
    ensures GetProperty(sinkPresent, privPresent, propId, clientPresent).diagnostic ==
            SetProperty(sinkPresent, privPresent, propId, clientPresent, value)
    ensures SetProperty(sinkPresent, privPresent, propId, clientPresent, value) == NoDiagnostic ==>
            GetProperty(sinkPresent, privPresent, propId, clientPresent).written == Some(true)
  {
  }
}
