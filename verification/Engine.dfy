/**
 The recognition engine: a parent and a child process over a pair of FIFO pipes.

 The child runs between any two actions of the parent, for any number of steps,
 and can die at each of them. Replies carry the number of the call they answer;
 the parent never looks at it, the number only serves to state the properties.
 */
module Engine {
  import opened Common

  datatype ErrorCode = InvalidInput | TemporaryUpstream

  /** What the child makes of one page, and of a whole file. */
  datatype Outcome = Recognized(content: string) | Rejected(code: ErrorCode)

  datatype Document = Unreadable | Readable(pages: seq<Outcome>)

  datatype Page = Page(number: nat, content: string)

  datatype Body = Count(count: nat) | PageOf(page: Page) | Done | Error(code: ErrorCode)

  datatype Message = Ready | Reply(call: nat, body: Body)

  /** Where the child is in its loop. */
  datatype Control = Loading | Waiting | Opening(call: nat) | Recognizing(call: nat, next: nat)

  datatype Failure =
    | BrokenPipe | ProcessCrash | ResourceLimit | Timeout | EndOfFile | NotReady | BadMessage | Reported(code: ErrorCode)

  const MAX_PAGES := 20
  const MEMORY_LIMIT := 4 * 1024 * 1024 * 1024

  predicate Countable(d: Document) {
    d.Readable? && 1 <= |d.pages| <= MAX_PAGES
  }

  /** The message with this index, if the child gets as far as sending it. */
  function ReplyBody(d: Document, i: nat): Body {
    if !Countable(d) then Error(InvalidInput)
    else if i == 0 then Count(|d.pages|)
    else if i > |d.pages| then Done
    else match d.pages[i - 1]
      case Recognized(content) => PageOf(Page(i, content))
      case Rejected(code) => Error(code)
  }

  ghost predicate AllRecognized(pages: seq<Outcome>) {
    forall i :: 0 <= i < |pages| ==> pages[i].Recognized?
  }

  /** The complete answer for a file: every page once, in order, numbered from one. */
  ghost predicate IsAnswer(pages: seq<Page>, d: Document) {
    && Countable(d) && AllRecognized(d.pages)
    && |pages| == |d.pages| && forall i :: 0 <= i < |pages| ==> pages[i] == Page(i + 1, d.pages[i].content)
  }

  /** The first fault that the child finds in a file. */
  ghost predicate Faulty(d: Document, code: ErrorCode) {
    if !Countable(d) then code == InvalidInput
    else exists i :: 0 <= i < |d.pages| && d.pages[i] == Rejected(code) && AllRecognized(d.pages[..i])
  }

  /** A failure that the child reports is real, and no message is out of place. */
  ghost predicate Explained(r: Result<seq<Page>, Failure>, d: Document) {
    r.Err? ==> r.error != BadMessage && (r.error.Reported? ==> Faulty(d, r.error.code))
  }

  /** What the parent knows about the conversation. */
  datatype Phase = Down | Booting | Quiet | Serving(call: nat, received: seq<Message>)

  ghost predicate Answers(sent: seq<Message>, call: nat, d: Document) {
    && (forall i :: 0 <= i < |sent| ==> sent[i] == Reply(call, ReplyBody(d, i)))
    && |sent| <= if Countable(d) then |d.pages| + 2 else 1
  }

  /** The child has sent exactly this for the call so far, given where it is. */
  ghost predicate Consistent(control: Control, commands: seq<nat>, sent: seq<Message>, call: nat, d: Document) {
    && Answers(sent, call, d)
    && match control
       case Loading => false
       case Waiting => if commands == [] then sent != [] else commands == [call] && sent == []
       case Opening(c) => c == call && commands == [] && sent == []
       case Recognizing(c, next) =>
         && c == call && commands == [] && Countable(d) && |sent| == next + 1 && next <= |d.pages|
         && AllRecognized(d.pages[..next])
  }

  lemma {:induction false} OneMoreAnswer(sent: seq<Message>, call: nat, d: Document)
    requires Answers(sent, call, d) && |sent| < if Countable(d) then |d.pages| + 2 else 1
    ensures Answers(sent + [Reply(call, ReplyBody(d, |sent|))], call, d)
  {
  }

  /** A message that has been read is the one that was due. */
  lemma MessageRead(received: seq<Message>, rest: seq<Message>, call: nat, d: Document)
    requires Answers(received + rest, call, d) && received != []
    ensures received[|received| - 1] == Reply(call, ReplyBody(d, |received| - 1))
    ensures |received| <= if Countable(d) then |d.pages| + 2 else 1
  {
    assert (received + rest)[|received| - 1] == received[|received| - 1];
  }

  ghost predicate IsPartOfAnswer(pages: seq<Page>, d: Document) {
    && Countable(d) && |pages| <= |d.pages| && AllRecognized(d.pages[..|pages|])
    && forall i :: 0 <= i < |pages| ==> pages[i] == Page(i + 1, d.pages[i].content)
  }

  /** A message of the page loop is the next page, or the fault found there. */
  lemma PageMessage(received: seq<Message>, message: Message, rest: seq<Message>, call: nat, d: Document, pages: seq<Page>)
    requires Answers(received + [message] + rest, call, d) && |received| == |pages| + 1
    requires IsPartOfAnswer(pages, d) && |pages| < |d.pages|
    ensures message.Reply? && (message.body.Error? || message.body.PageOf?)
    ensures message.body.Error? ==> Faulty(d, message.body.code)
    ensures message.body.PageOf? ==> IsPartOfAnswer(pages + [message.body.page], d)
  {
    MessageRead(received + [message], rest, call, d);
    assert (received + [message])[|received|] == message;
    assert d.pages[..|pages| + 1] == d.pages[..|pages|] + [d.pages[|pages|]];
  }

  lemma AllPagesAnswer(pages: seq<Page>, d: Document)
    requires IsPartOfAnswer(pages, d) && |pages| == |d.pages|
    ensures IsAnswer(pages, d)
  {
    assert d.pages[..|pages|] == d.pages;
  }

  class Engine {
    /** The file that each call finds. */
    const document: nat -> Document

    /** The parent's fields: whether there is a process, and its memory peak. */
    var running: bool
    var peakRss: int
    var calls: nat

    /** The child and the two pipes. */
    var alive: bool
    var control: Control
    var commands: seq<nat>
    var inbox: seq<Message>

    constructor (document: nat -> Document)
      ensures At(Down) && this.document == document && calls == 0
    {
      this.document := document;
      running, peakRss, calls := false, 0, 0;
      alive, control, commands, inbox := false, Loading, [], [];
    }

    ghost predicate At(phase: Phase)
      reads this
    {
      match phase
      case Down => !running
      case Booting => running && commands == [] && ((control == Loading && inbox == []) || (control == Waiting && inbox == [Ready]))
      case Quiet => running && commands == [] && inbox == [] && control == Waiting
      case Serving(call, received) => running && Consistent(control, commands, received + inbox, call, document(call))
    }

    /** Between two calls: no process, or one that has nothing left to say. */
    ghost predicate Idle()
      reads this
    {
      At(Down) || At(Quiet)
    }

    method Send(message: Message)
      modifies this`inbox
      ensures inbox == old(inbox) + [message]
    {
      inbox := inbox + [message];
    }

    /** One step of the child's loop. */
    method ServeStep(ghost phase: Phase)
      requires At(phase) && running && alive
      modifies this`control, this`commands, this`inbox
      ensures At(phase)
    {
      match control {
        case Loading =>
          Send(Ready);
          control := Waiting;
        case Waiting =>
          if commands != [] {
            control, commands := Opening(commands[0]), commands[1..];
          }
        case Opening(call) =>
          ghost var sent := if phase.Serving? then phase.received + inbox else [];
          if phase.Serving? {
            OneMoreAnswer(sent, call, document(call));
          }
          var file := document(call);
          if !file.Readable? || !(1 <= |file.pages| <= MAX_PAGES) {
            Send(Reply(call, Error(InvalidInput)));
            control := Waiting;
          } else {
            Send(Reply(call, Count(|file.pages|)));
            control := Recognizing(call, 0);
          }
          assert phase.Serving? ==> phase.received + inbox == sent + [Reply(call, ReplyBody(file, |sent|))];
        case Recognizing(call, next) =>
          RecognizeStep(phase);
      }
    }

    /** One turn of the page loop, or its end. */
    method RecognizeStep(ghost phase: Phase)
      requires At(phase) && running && control.Recognizing?
      modifies this`control, this`inbox
      ensures At(phase)
    {
      var call, next := control.call, control.next;
      var file := document(call);
      ghost var sent := phase.received + inbox;
      OneMoreAnswer(sent, call, file);
      if next == |file.pages| {
        Send(Reply(call, Done));
        control := Waiting;
      } else {
        match file.pages[next] {
          case Recognized(content) =>
            Send(Reply(call, PageOf(Page(next + 1, content))));
            control := Recognizing(call, next + 1);
          case Rejected(code) =>
            Send(Reply(call, Error(code)));
            control := Waiting;
        }
      }
      assert phase.received + inbox == sent + [Reply(call, ReplyBody(file, |sent|))];
    }

    /** The child runs for a while, and may die. */
    method Interleave(ghost phase: Phase)
      requires At(phase) && running
      modifies this`alive, this`control, this`commands, this`inbox
      ensures At(phase) && (alive ==> old(alive))
    {
      var steps: nat := *;
      while steps > 0 && alive
        invariant At(phase) && running && (alive ==> old(alive))
        decreases steps
      {
        steps := steps - 1;
        ServeStep(phase);
        alive := *;
      }
    }

    method Close()
      modifies this`running, this`alive, this`commands, this`inbox
      ensures At(Down)
    {
      running, alive, commands, inbox := false, false, [], [];
    }

    ghost function After(phase: Phase, message: Message): Phase {
      match phase
      case Serving(call, received) => Serving(call, received + [message])
      case _ => Quiet
    }

    /** `_receive`: any number of polls before the deadline; memory is sampled before each. */
    method Receive(ghost phase: Phase) returns (r: Result<Message, Failure>)
      requires At(phase) && (phase.Booting? || phase.Serving?)
      modifies this`alive, this`control, this`commands, this`inbox, this`peakRss
      ensures r.Ok? ==> At(After(phase, r.value)) && (phase.Booting? ==> r.value == Ready)
      ensures r.Ok? && phase.Serving? ==> r.value.Reply? && r.value.call == phase.call
      ensures r.Ok? && old(peakRss) <= MEMORY_LIMIT ==> peakRss <= MEMORY_LIMIT
      ensures r.Err? ==> running && r.error != BrokenPipe && r.error != BadMessage && !r.error.Reported?
    {
      var polls: nat := *;
      while polls > 0
        invariant At(phase) && (old(peakRss) <= MEMORY_LIMIT ==> peakRss <= MEMORY_LIMIT)
      {
        polls := polls - 1;
        Interleave(phase);
        if !alive {
          return Err(ProcessCrash);
        }
        var rss: int := *;
        peakRss := Max(peakRss, rss);
        if rss > MEMORY_LIMIT {
          return Err(ResourceLimit);
        }
        Interleave(phase);
        if inbox != [] {
          r := Ok(inbox[0]);
          ghost var rest := inbox[1..];
          assert phase.Serving? ==> phase.received + inbox == phase.received + [inbox[0]] + rest && (phase.received + inbox)[|phase.received|] == inbox[0];
          inbox := inbox[1..];
          return;
        }
        if !alive {
          return Err(EndOfFile);
        }
      }
      r := Err(Timeout);
    }

    method Start() returns (failure: Option<Failure>)
      requires Idle()
      modifies this`running, this`alive, this`control, this`commands, this`inbox, this`peakRss
      ensures if failure.Some? then At(Down) && failure.value != BrokenPipe && failure.value != BadMessage && !failure.value.Reported? else At(Quiet)
      ensures old(running) ==> failure.None? && alive == old(alive)
    {
      if running {
        return None;
      }
      running, alive, control, commands, inbox := true, true, Loading, [], [];
      var r := Receive(Booting);
      if r.Err? || r.value != Ready {
        Close();
        return Some(if r.Err? then r.error else NotReady);
      }
      failure := None;
    }

    /** The messages between the header and the last one. */
    method CollectPages(ghost call: nat, ghost header: Message, count: nat)
      returns (r: Result<seq<Page>, Failure>, ghost received: seq<Message>)
      requires At(Serving(call, [header])) && Countable(document(call)) && count == |document(call).pages|
      modifies this`alive, this`control, this`commands, this`inbox, this`peakRss
      ensures running && r != Err(BrokenPipe) && (old(peakRss) <= MEMORY_LIMIT ==> r.Err? || peakRss <= MEMORY_LIMIT)
      ensures r.Ok? ==> At(Serving(call, received)) && |received| == count + 1 && IsAnswer(r.value, document(call))
      ensures Explained(r, document(call))
    {
      received := [header];
      var pages: seq<Page> := [];
      while |pages| < count
        invariant At(Serving(call, received))
        invariant |received| == |pages| + 1 && |pages| <= count
        invariant IsPartOfAnswer(pages, document(call))
        invariant old(peakRss) <= MEMORY_LIMIT ==> peakRss <= MEMORY_LIMIT
      {
        var next := Receive(Serving(call, received));
        if next.Err? {
          return Err(next.error), received;
        }
        PageMessage(received, next.value, inbox, call, document(call), pages);
        received := received + [next.value];
        if next.value.body.Error? {
          return Err(Reported(next.value.body.code)), received;
        }
        pages := pages + [next.value.body.page];
      }
      AllPagesAnswer(pages, document(call));
      r := Ok(pages);
    }

    /** The messages of one call, after its command has been sent. */
    method Collect(ghost call: nat) returns (r: Result<seq<Page>, Failure>)
      requires At(Serving(call, []))
      modifies this`alive, this`control, this`commands, this`inbox, this`peakRss
      ensures r.Ok? ==> At(Quiet) && IsAnswer(r.value, document(call))
      ensures Explained(r, document(call))
      ensures r.Ok? && old(peakRss) <= MEMORY_LIMIT ==> peakRss <= MEMORY_LIMIT
      ensures r.Err? ==> running && r.error != BrokenPipe
    {
      var header := Receive(Serving(call, []));
      if header.Err? {
        return Err(header.error);
      }
      ghost var received := [header.value];
      assert [] + received == received;
      MessageRead(received, inbox, call, document(call));
      if header.value.body.Error? {
        return Err(Reported(header.value.body.code));
      }
      r, received := CollectPages(call, header.value, header.value.body.count);
      if r.Err? {
        return;
      }
      var last := Receive(Serving(call, received));
      if last.Err? {
        return Err(last.error);
      }
      received := received + [last.value];
      MessageRead(received, inbox, call, document(call));
      if last.value.body != Done {
        return Err(BadMessage);
      }
    }

    /** `__call__`. */
    method Call() returns (r: Result<seq<Page>, Failure>)
      requires Idle()
      modifies this
      ensures Idle() && calls == old(calls) + 1
      ensures r.Ok? ==> IsAnswer(r.value, document(old(calls))) && peakRss <= MEMORY_LIMIT
      ensures Explained(r, document(old(calls)))
      ensures r.Err? ==> if r.error == BrokenPipe then At(Quiet) && !alive else At(Down)
      ensures old(running && !alive) ==> r == Err(BrokenPipe) && running && !alive
    {
      var call := calls;
      calls := calls + 1;
      var failure := Start();
      if failure.Some? {
        return Err(failure.value);
      }
      peakRss := 0;
      Interleave(Quiet);
      if !alive {
        return Err(BrokenPipe);
      }
      commands := commands + [call];
      r := Collect(call);
      if r.Err? {
        Close();
      }
    }

    /**
     Any number of calls in a row. Every answer is that of its own call's file,
     whatever failed before it; but the send is not guarded, so a child that
     dies while idle is never replaced and every later call fails.
     */
    method Run(n: nat) returns (results: seq<Result<seq<Page>, Failure>>)
      requires Idle() && calls == 0
      modifies this
      ensures Idle() && |results| == n
      ensures forall i :: 0 <= i < n && results[i].Ok? ==> IsAnswer(results[i].value, document(i))
      ensures forall i :: 0 <= i < n ==> Explained(results[i], document(i))
      ensures forall i, j :: 0 <= i < j < n && results[i] == Err(BrokenPipe) ==> results[j] == Err(BrokenPipe)
    {
      results := [];
      while |results| < n
        invariant Idle() && calls == |results| && |results| <= n
        invariant forall i :: 0 <= i < |results| && results[i].Ok? ==> IsAnswer(results[i].value, document(i))
        invariant forall i :: 0 <= i < |results| ==> Explained(results[i], document(i))
        invariant forall i, j :: 0 <= i < j < |results| && results[i] == Err(BrokenPipe) ==> results[j] == Err(BrokenPipe)
        invariant (exists i :: 0 <= i < |results| && results[i] == Err(BrokenPipe)) ==> running && !alive
      {
        var r := Call();
        results := results + [r];
      }
    }
  }
}
