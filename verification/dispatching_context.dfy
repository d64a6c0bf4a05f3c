/** The check context that turns analyzer findings into host log events by
    handing them to an event dispatcher
    (src/Build/BuildCheck/Infrastructure/CheckContext/CheckDispatchingContext.cs).

    Every comment, warning or error call builds exactly one event, stamped
    with the build event context fixed at construction, and dispatches it;
    the two telemetry calls do nothing. The text of resource strings and the
    formatting of message arguments belong to helpers outside this model, so
    events keep the resource name, the text and the arguments as given. */
module BuildCheckInfrastructure {
  import opened Wrappers

  /** Identifies the node, project and evaluation an event belongs to. */
  datatype BuildEventContext = BuildEventContext(nodeId: int, evaluationId: int, projectInstanceId: int, projectContextId: int)

  datatype MessageImportance = High | Normal | Low

  /** The location a warning or error points at. */
  datatype BuildEventFileInfo = BuildEventFileInfo(file: string, line: int, column: int, endLine: int, endColumn: int)

  /** Where a message's text comes from: a named resource string or literal text. */
  datatype MessageText = ResourceString(resourceName: string) | Text(text: string)

  /** The events the context creates (the event creation helpers become the
      constructors Message, Warning and Error), plus events built elsewhere
      and passed in whole. */
  datatype BuildEvent =
    | Message(context: BuildEventContext, importance: MessageImportance, message: MessageText, messageArgs: Option<seq<string>>)
    | Warning(context: BuildEventContext, subcategoryResourceName: Option<string>, code: Option<string>,
              helpKeyword: Option<string>, file: BuildEventFileInfo, text: string)
    | Error(context: BuildEventContext, subcategoryResourceName: Option<string>, code: Option<string>,
            helpKeyword: Option<string>, file: BuildEventFileInfo, text: string)
    | Other(context: BuildEventContext, description: string)

  /** The result of a dispatching call: done, or the internal error raised by
      an argument check before anything is dispatched. */
  datatype DispatchOutcome = Dispatched | InternalError

  /** The shared stream of dispatched events, in dispatch order. */
  class EventArgsDispatcher {
    var dispatched: seq<BuildEvent>

    constructor ()
      ensures dispatched == []
    {
      dispatched := [];
    }

    method Dispatch(buildEvent: BuildEvent)
      modifies this
      ensures dispatched == old(dispatched) + [buildEvent]
    {
      dispatched := dispatched + [buildEvent];
    }
  }

  class CheckDispatchingContext {
    const eventDispatcher: EventArgsDispatcher
    /** Read-only: the value of the BuildEventContext property for the
        context's whole lifetime. */
    const buildEventContext: BuildEventContext

    constructor (dispatch: EventArgsDispatcher, eventContext: BuildEventContext)
      ensures eventDispatcher == dispatch && buildEventContext == eventContext
      ensures unchanged(dispatch)
    {
      eventDispatcher := dispatch;
      buildEventContext := eventContext;
    }

    /** Dispatches an event built elsewhere; a missing (null) event is an
        internal error and nothing is dispatched. */
    method DispatchBuildEvent(buildEvent: Option<BuildEvent>) returns (outcome: DispatchOutcome)
      modifies eventDispatcher
      ensures outcome == InternalError <==> buildEvent.None?
      ensures eventDispatcher.dispatched ==
        if buildEvent.Some? then old(eventDispatcher.dispatched) + [buildEvent.value] else old(eventDispatcher.dispatched)
    {
      if buildEvent.None? {
        return InternalError;
      }
      eventDispatcher.Dispatch(buildEvent.value);
      outcome := Dispatched;
    }

    /** Dispatches a message whose text is the named resource string; an empty
        resource name is an internal error and nothing is dispatched. */
    method DispatchAsComment(importance: MessageImportance, messageResourceName: string, messageArgs: seq<string>)
      returns (outcome: DispatchOutcome)
      modifies eventDispatcher
      ensures outcome == InternalError <==> messageResourceName == ""
      ensures eventDispatcher.dispatched == old(eventDispatcher.dispatched) +
        if outcome == Dispatched
        then [Message(buildEventContext, importance, ResourceString(messageResourceName), Some(messageArgs))]
        else []
    {
      if |messageResourceName| == 0 {
        return InternalError;
      }
      DispatchAsCommentWithContext(buildEventContext, importance, ResourceString(messageResourceName), Some(messageArgs));
      outcome := Dispatched;
    }

    /** Dispatches a message with the given text and no arguments. */
    method DispatchAsCommentFromText(importance: MessageImportance, message: string)
      modifies eventDispatcher
      ensures eventDispatcher.dispatched == old(eventDispatcher.dispatched) + [Message(buildEventContext, importance, Text(message), None)]
    {
      DispatchAsCommentWithContext(buildEventContext, importance, Text(message), None);
    }

    /** The private overload both comment calls go through. */
    method DispatchAsCommentWithContext(context: BuildEventContext, importance: MessageImportance, message: MessageText,
                                        messageArgs: Option<seq<string>>)
      modifies eventDispatcher
      ensures eventDispatcher.dispatched == old(eventDispatcher.dispatched) + [Message(context, importance, message, messageArgs)]
    {
      eventDispatcher.Dispatch(Message(context, importance, message, messageArgs));
    }

    method DispatchAsErrorFromText(subcategoryResourceName: Option<string>, errorCode: Option<string>, helpKeyword: Option<string>,
                                   file: BuildEventFileInfo, message: string)
      modifies eventDispatcher
      ensures eventDispatcher.dispatched ==
        old(eventDispatcher.dispatched) + [Error(buildEventContext, subcategoryResourceName, errorCode, helpKeyword, file, message)]
    {
      eventDispatcher.Dispatch(Error(buildEventContext, subcategoryResourceName, errorCode, helpKeyword, file, message));
    }

    method DispatchAsWarningFromText(subcategoryResourceName: Option<string>, errorCode: Option<string>, helpKeyword: Option<string>,
                                     file: BuildEventFileInfo, message: string)
      modifies eventDispatcher
      ensures eventDispatcher.dispatched ==
        old(eventDispatcher.dispatched) + [Warning(buildEventContext, subcategoryResourceName, errorCode, helpKeyword, file, message)]
    {
      eventDispatcher.Dispatch(Warning(buildEventContext, subcategoryResourceName, errorCode, helpKeyword, file, message));
    }

    /** No action: telemetry is not recorded in this context. */
    method DispatchFailedAcquisitionTelemetry(assemblyName: string, exceptionMessage: string)
      ensures unchanged(eventDispatcher)
    {
    }

    /** No action: telemetry is not recorded in this context. */
    method DispatchTelemetry(data: string)
      ensures unchanged(eventDispatcher)
    {
    }
  }

  /** True when every event of `events` that this context created itself
      carries `context`. */
  predicate CreatedWithContext(events: seq<BuildEvent>, context: BuildEventContext)
  {
    forall i :: 0 <= i < |events| && !events[i].Other? ==> events[i].context == context
  }

  /** Rule BC0101, enabled as a warning, reported twice with distinct texts:
      two warning events, in order, each with the context's own build event
      context, the rule id as code and its own text. Telemetry and a rejected
      comment in between add nothing. */
  method TwoWarningsScenario(eventContext: BuildEventContext, file: BuildEventFileInfo)
    returns (events: seq<BuildEvent>)
    ensures |events| == 2 && CreatedWithContext(events, eventContext)
    ensures events[0].Warning? && events[0].code == Some("BC0101") && events[0].file == file && events[0].text == "first"
    ensures events[1].Warning? && events[1].code == Some("BC0101") && events[1].file == file && events[1].text == "second"
  {
    var dispatcher := new EventArgsDispatcher();
    var context := new CheckDispatchingContext(dispatcher, eventContext);
    context.DispatchAsWarningFromText(None, Some("BC0101"), None, file, "first");
    context.DispatchTelemetry("tracing");
    var rejected := context.DispatchAsComment(Low, "", []);
    assert rejected == InternalError;
    context.DispatchAsWarningFromText(None, Some("BC0101"), None, file, "second");
    events := dispatcher.dispatched;
  }
}
