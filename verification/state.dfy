/**
 * State: a TCP connection delegates open, close, send and acknowledge to its
 * current state object, Closed or Established; the state objects switch the
 * connection between the two and report everything else.
 */
module State {
  import opened Wrappers

  datatype TcpState = Closed | Established

  /** The requests a connection accepts. */
  datatype Event = Open | Close | Send(data: string) | Acknowledge

  /** What the state object reports for a request. */
  datatype Report =
    | Opening                  // Closed, open
    | AlreadyClosed            // Closed, close
    | CannotSendClosed         // Closed, send (an error)
    | CannotAcknowledgeClosed  // Closed, acknowledge (an error)
    | AlreadyOpen              // Established, open (an error)
    | Closing                  // Established, close
    | Sending(data: string)    // Established, send
    | NothingToAcknowledge     // Established, acknowledge (an error)

  predicate IsError(report: Report) {
    report.CannotSendClosed? || report.CannotAcknowledgeClosed? ||
    report.AlreadyOpen? || report.NothingToAcknowledge?
  }

  datatype Step = Step(next: TcpState, report: Report)

  /** The transition table of ClosedState and EstablishedState. */
  function Transition(state: TcpState, event: Event): (r: Step)
    ensures event.Send? || event.Acknowledge? ==> r.next == state
    ensures r.report.Sending? <==> state == Established && event.Send?
    ensures r.report.Sending? ==> r.report.data == event.data
    ensures event.Acknowledge? ==> IsError(r.report)
    ensures r.next != state <==> (state == Closed && event == Open) || (state == Established && event == Close)
  {
    match (state, event)
    case (Closed, Open) => Step(Established, Opening)
    case (Closed, Close) => Step(Closed, AlreadyClosed)
    case (Closed, Send(_)) => Step(Closed, CannotSendClosed)
    case (Closed, Acknowledge) => Step(Closed, CannotAcknowledgeClosed)
    case (Established, Open) => Step(Established, AlreadyOpen)
    case (Established, Close) => Step(Closed, Closing)
    case (Established, Send(data)) => Step(Established, Sending(data))
    case (Established, Acknowledge) => Step(Established, NothingToAcknowledge)
  }

  datatype Trace = Trace(final: TcpState, reports: seq<Report>)

  /** A sequence of requests applied one after another. */
  function Run(state: TcpState, events: seq<Event>): (t: Trace)
    ensures |t.reports| == |events|
    decreases |events|
  {
    if events == [] then Trace(state, [])
    else
      var step := Transition(state, events[0]);
      var rest := Run(step.next, events[1..]);
      Trace(rest.final, [step.report] + rest.reports)
  }

  /** The last open or close request in `events`, if any. */
  function LastControl(events: seq<Event>): Option<Event> {
    if events == [] then None
    else if LastControl(events[1..]).Some? then LastControl(events[1..])
    else if events[0].Open? || events[0].Close? then Some(events[0])
    else None
  }

  /**
   * Only open and close move the connection: after any sequence of requests
   * it is Established exactly when the last of them was an open, and is in
   * its starting state when there was neither.
   */
  lemma {:induction false} RunEndsByLastControl(state: TcpState, events: seq<Event>)
    ensures LastControl(events) == Some(Open) ==> Run(state, events).final == Established
    ensures LastControl(events) == Some(Close) ==> Run(state, events).final == Closed
    ensures LastControl(events) == None ==> Run(state, events).final == state
    decreases |events|
  {
    if events != [] {
      RunEndsByLastControl(Transition(state, events[0]).next, events[1..]);
    }
  }

  /** The context. */
  class TcpConnection {
    var state: TcpState

    /** A new connection starts Closed. */
    constructor ()
      ensures state == Closed
    {
      state := Closed;
    }

    method Open() returns (report: Report)
      modifies this
      ensures Step(state, report) == Transition(old(state), Event.Open)
    {
      match state
      case Closed =>
        report := Opening;
        state := Established;
      case Established =>
        report := AlreadyOpen;
    }

    method Close() returns (report: Report)
      modifies this
      ensures Step(state, report) == Transition(old(state), Event.Close)
    {
      match state
      case Closed =>
        report := AlreadyClosed;
      case Established =>
        report := Closing;
        state := Closed;
    }

    method Send(data: string) returns (report: Report)
      modifies this
      ensures Step(state, report) == Transition(old(state), Event.Send(data))
    {
      match state
      case Closed =>
        report := CannotSendClosed;
      case Established =>
        report := Sending(data);
    }

    method Acknowledge() returns (report: Report)
      modifies this
      ensures Step(state, report) == Transition(old(state), Event.Acknowledge)
    {
      match state
      case Closed =>
        report := CannotAcknowledgeClosed;
      case Established =>
        report := NothingToAcknowledge;
    }
  }

  /** The example script: open, send, close, send; the second send is refused. */
  method ConnectionScenario() returns (reports: seq<Report>, final: TcpState)
    ensures reports == [Opening, Sending("Hello, server!"), Closing, CannotSendClosed]
    ensures final == Closed
    ensures Trace(final, reports) ==
      Run(Closed, [Event.Open, Event.Send("Hello, server!"), Event.Close, Event.Send("This data won't be sent.")])
  {
    var connection := new TcpConnection();
    var r1 := connection.Open();
    var r2 := connection.Send("Hello, server!");
    var r3 := connection.Close();
    var r4 := connection.Send("This data won't be sent.");
    reports := [r1, r2, r3, r4];
    final := connection.state;
  }
}
