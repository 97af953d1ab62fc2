/**
 The life of one build in backend/copr_backend/background_worker_build.py: handle_task(),
 handle_build(), retry_the_build() and build(), where every step may raise anything.

 Steps whose effect is outside of the worker (ssh, storage, signing, the frontend) are reduced
 to their outcome: they return, or raise an exception chosen by the environment.
 */
module BuildLife {
  import opened Wrappers

  datatype Exc =
    | BuildRetry
    | SshConnectionError
    | BuildCanceled
    | BackendError
    | ThreeHostsTried    // the BackendError of retry_the_build
    | OtherError         // any other Exception
    | Interrupt          // KeyboardInterrupt, SystemExit: no `except` clause below catches it

  datatype Outcome = Ok | Raise(exc: Exc)

  datatype Status = Unset | Starting | Running | Succeeded | Failed

  /** A VM, asked for by a ticket of the VM provider; the host name is known once the VM is ready. */
  datatype Host = Host(ticket: nat, hostname: Option<string>)

  /** What becomes of one turn of the allocation loop. */
  datatype Turn =
    | NoTicket(exc: Exc)            // get_host() raised
    | Ready(name: Option<string>)
    | FoundClosed                   // wait_ready() gave up: somebody closed the ticket
    | GaveUpOpen(name: Option<string>)  // wait_ready() gave up, or raised, on a ticket that is open
    | Canceled(dropped: bool)       // dropped: the cancel callback came to its release, and that worked
    | Stopped(exc: Exc)             // anything else raised while waiting

  predicate Goes(t: Turn) {
    t.FoundClosed? || t.GaveUpOpen?
  }

  /** The loop goes on after a failed wait and ends with anything else. */
  predicate Turns(script: seq<Turn>) {
    && script != [] && !Goes(script[|script| - 1])
    && (forall i :: 0 <= i < |script| - 1 ==> Goes(script[i]))
    && (forall i :: 0 <= i < |script| ==>
          (script[i].NoTicket? || script[i].Stopped?) ==> script[i].exc != ThreeHostsTried)
  }

  /** What happens to tickets, in order. */
  datatype Event = Got(ticket: nat) | GivenUp(ticket: nat) | Closed(ticket: nat)

  /** The tickets that were given up open, the next thing being that another one was asked for. */
  function Overwritten(log: seq<Event>): set<nat> {
    if |log| < 2 then {}
    else if log[|log| - 1].Got? && log[|log| - 2].GivenUp? then
      Overwritten(log[..|log| - 1]) + {log[|log| - 2].ticket}
    else Overwritten(log[..|log| - 1])
  }

  lemma OverwrittenAppend(log: seq<Event>, e: Event)
    ensures Overwritten(log + [e]) ==
            if log != [] && e.Got? && log[|log| - 1].GivenUp? then Overwritten(log) + {log[|log| - 1].ticket}
            else Overwritten(log)
  {
    assert (log + [e])[..|log|] == log;
  }

  /** A ticket is asked for right after the one before was given up open. */
  predicate Replaces(log: seq<Event>, i: nat)
    requires i < |log|
  {
    i > 0 && log[i].Got? && log[i - 1].GivenUp?
  }

  /** Nothing is overwritten exactly when no ticket took the place of one that was given up open. */
  lemma {:induction false} NothingOverwritten(log: seq<Event>)
    ensures Overwritten(log) == {} <==> forall i: nat :: i < |log| ==> !Replaces(log, i)
  {
    if |log| >= 2 {
      var n := |log| - 1;
      NothingOverwritten(log[..n]);
      forall i: nat | i < n ensures Replaces(log[..n], i) == Replaces(log, i) {
      }
      if Replaces(log, n) {
        assert log[n - 1].ticket in Overwritten(log);
      }
    }
  }

  /** The steps after the results are downloaded, in their order. */
  datatype Step =
    | CheckSuccess | Sign | Upload | Createrepo | ParseResults | GetDetails | UpdateJob | Validate | AddPubkey | Cleanup

  function Stored(doSign: bool): seq<Step> {
    [CheckSuccess] + (if doSign then [Sign] else []) + [Upload, Createrepo, ParseResults]
  }

  function SuccessPath(doSign: bool): seq<Step> {
    Stored(doSign) + [GetDetails, UpdateJob, Validate, AddPubkey, Cleanup]
  }

  /** How far one attempt came on that path, and what ended it. */
  datatype Conclusion = Conclusion(done: seq<Step>, end: Outcome)

  /** Every step returned, or an interrupt came after the success file was seen. */
  predicate Earned(c: Conclusion, doSign: bool) {
    c.done == SuccessPath(doSign) || (c.done != [] && c.end == Raise(Interrupt))
  }

  /** What the environment does with each of those steps. */
  type Fate = Step -> Outcome

  predicate Plausible(fate: Fate) {
    forall s :: fate(s) != Raise(ThreeHostsTried)
  }

  /** The path is walked up to the first step that raises, which ends it. */
  ghost predicate Walked(fate: Fate, path: seq<Step>, done: seq<Step>, o: Outcome) {
    && done <= path
    && (forall i :: 0 <= i < |done| ==> fate(done[i]).Ok?)
    && if done == path then o.Ok? else o.Raise? && o == fate(path[|done|])
  }

  /** How one call of build() ended, and the host in hand then. */
  datatype End = End(outcome: Outcome, host: Option<Host>)

  /** The ends that are not the last one: why there was another attempt. */
  predicate OnlyRetries(ends: seq<End>, n: nat)
    requires n <= |ends|
  {
    forall k :: 0 <= k < n ==> ends[k].outcome == Raise(BuildRetry) || ends[k].outcome == Raise(SshConnectionError)
  }

  /** The host names in a log of failed attempts. */
  function Names(log: seq<Option<Host>>): set<Option<string>> {
    if log == [] then {}
    else if log[|log| - 1].Some? then Names(log[..|log| - 1]) + {log[|log| - 1].value.hostname}
    else Names(log[..|log| - 1])
  }

  lemma NamesAppend(log: seq<Option<Host>>, h: Option<Host>)
    ensures Names(log + [h]) == if h.Some? then Names(log) + {h.value.hostname} else Names(log)
  {
    assert (log + [h])[..|log|] == log;
  }

  const MAX_HOST_ATTEMPTS := 3

  /** A step of the environment. */
  method Any() returns (o: Outcome)
    ensures o != Raise(ThreeHostsTried)
  {
    o := *;
    if o == Raise(ThreeHostsTried) {
      o := Raise(BackendError);
    }
  }

  /** n steps of the environment, up to the first that raises. */
  method Steps(n: nat) returns (o: Outcome)
    ensures o != Raise(ThreeHostsTried)
  {
    o := Ok;
    var i := 0;
    while i < n && o.Ok?
      invariant o != Raise(ThreeHostsTried)
      decreases n - i, o.Ok?
    {
      o := Any();
      i := i + 1;
    }
  }

  /** The open tickets are those that were overwritten, and the one in hand unless it was found closed. */
  ghost predicate Accounted(made: nat, open: set<nat>, log: seq<Event>, host: Option<Host>) {
    && (forall t :: t in open ==> t < made)
    && Overwritten(log) <= open
    && (host.None? ==> open == Overwritten(log) && (log != [] ==> !log[|log| - 1].GivenUp?))
    && (host.Some? ==>
          && host.value.ticket < made && log != [] && log[|log| - 1].ticket == host.value.ticket
          && host.value.ticket !in Overwritten(log)
          && open == Overwritten(log) + if log[|log| - 1].Closed? then {} else {host.value.ticket})
  }

  /** A ticket is closed, by release or by somebody else. */
  lemma TicketCloses(made: nat, open: set<nat>, log: seq<Event>, host: Option<Host>)
    requires Accounted(made, open, log, host) && host.Some?
    ensures var t := host.value.ticket;
            var open', log' := open - {t}, log + [Closed(t)];
            && Overwritten(log') == Overwritten(log)
            && Accounted(made, open', log', host) && Accounted(made, open', log', None)
  {
    OverwrittenAppend(log, Closed(host.value.ticket));
  }

  lemma TicketGivenUp(made: nat, open: set<nat>, log: seq<Event>, host: Option<Host>, name: Option<string>)
    requires Accounted(made, open, log, host) && host.Some? && log[|log| - 1].Got?
    ensures var t := host.value.ticket;
            Accounted(made, open, log + [GivenUp(t)], Some(Host(t, name)))
  {
    OverwrittenAppend(log, GivenUp(host.value.ticket));
  }

  class BuildWorker {
    var job: Option<Status>
    var host: Option<Host>
    const doSign: bool
    const releaseWorks: bool       // host.release() never raises

    // what the frontend and the message bus were told
    ghost var startUpdates: nat
    ghost var buildStarts: nat
    ghost var chrootStarts: nat
    ghost var reports: seq<Status>
    // how each call of build() ended, how those that got to it concluded, and the host in hand
    // whenever one of them ended in a request for a retry
    ghost var ends: seq<End>
    ghost var concluded: seq<Conclusion>
    ghost var retried: seq<Option<Host>>
    // the tickets at the VM provider: how many were made, which are open, and what happened to them
    var made: nat
    ghost var open: set<nat>
    ghost var log: seq<Event>

    constructor (doSign: bool, releaseWorks: bool)
      ensures job.None? && host.None? && this.doSign == doSign && this.releaseWorks == releaseWorks
      ensures startUpdates == buildStarts == chrootStarts == made == 0
      ensures reports == [] && ends == [] && concluded == [] && retried == [] && open == {} && log == []
    {
      job, host, this.doSign, this.releaseWorks := None, None, doSign, releaseWorks;
      startUpdates, buildStarts, chrootStarts, made := 0, 0, 0, 0;
      reports, ends, concluded, retried, open, log := [], [], [], [], {}, [];
    }

    /** A job counts as succeeded only when one of its attempts earned it. */
    ghost predicate SuccessEarned()
      reads this`job, this`concluded
    {
      job == Some(Succeeded) ==> exists c :: c in concluded && Earned(c, doSign)
    }

    ghost predicate Tracked()
      reads this`made, this`open, this`log, this`host
    {
      Accounted(made, open, log, host)
    }

    method DropHost() returns (o: Outcome)
      requires Tracked()
      modifies this`host, this`open, this`log
      ensures Tracked()
      ensures o != Raise(ThreeHostsTried)
      ensures o.Ok? ==> host.None? && Overwritten(log) == Overwritten(old(log))
      ensures o.Raise? ==> host == old(host) && open == old(open) && log == old(log) && !releaseWorks
    {
      if host.None? {
        return Ok;
      }
      o := Any();
      if o.Raise? && !releaseWorks {
        return o;
      }
      TicketCloses(made, open, log, host);
      open, log := open - {host.value.ticket}, log + [Closed(host.value.ticket)];
      host := None;
      return Ok;
    }

    method CancelIfRequested() returns (o: Outcome)
      requires Tracked()
      modifies this`host, this`open, this`log
      ensures Tracked()
      ensures o != Raise(ThreeHostsTried)
      ensures o.Ok? ==> host == old(host)
      ensures host == old(host) || host.None?
    {
      o := Any();
      if o.Raise? {
        return;
      }
      var requested: bool := *;
      if requested {
        o := DropHost();
        if o.Ok? {
          o := Raise(BuildCanceled);
        }
      }
    }

    /** get_host(): one more ticket, which takes the place of the one in hand. */
    method GetHost()
      requires Tracked() && (host.Some? ==> log[|log| - 1].GivenUp? || log[|log| - 1].Closed?)
      modifies this`host, this`made, this`open, this`log
      ensures Tracked() && host == Some(Host(old(made), None)) && made == old(made) + 1
      ensures log == old(log) + [Got(old(made))] && open == old(open) + {old(made)}
    {
      OverwrittenAppend(log, Got(made));
      host, open, log := Some(Host(made, None)), open + {made}, log + [Got(made)];
      made := made + 1;
    }

    /** What the log gains when a ticket is waited for. */
    ghost function AwaitLog(t: Turn, ticket: nat): seq<Event> {
      match t
      case FoundClosed => [Closed(ticket)]
      case GaveUpOpen(_) => [GivenUp(ticket)]
      case Canceled(dropped) => if dropped then [Closed(ticket)] else []
      case _ => []
    }

    /** What the log gains from one turn of the allocation loop. */
    ghost function TurnLog(t: Turn, ticket: nat): seq<Event> {
      if t.NoTicket? then [] else [Got(ticket)] + AwaitLog(t, ticket)
    }

    /** One turn of the loop of _alloc_host, as the environment has it. */
    method AllocTurn(t: Turn) returns (o: Outcome)
      requires Tracked() && (host.Some? ==> log[|log| - 1].GivenUp? || log[|log| - 1].Closed?)
      requires t.NoTicket? || t.Stopped? ==> t.exc != ThreeHostsTried
      modifies this`host, this`made, this`open, this`log
      ensures Tracked() && o != Raise(ThreeHostsTried)
      ensures log == old(log) + TurnLog(t, old(made))
      ensures made == old(made) + if t.NoTicket? then 0 else 1
      ensures o.Ok? <==> t.Ready? || t.FoundClosed? || t.GaveUpOpen?
      ensures o.Ok? ==> host.Some?
      ensures Goes(t) ==> log[|log| - 1].GivenUp? || log[|log| - 1].Closed?
    {
      if t.NoTicket? {
        assert log == log + [];
        return Raise(t.exc);
      }
      GetHost();
      o := Await(t);
    }

    /** wait_ready() on the ticket just made. */
    method Await(t: Turn) returns (o: Outcome)
      requires Tracked() && host.Some? && log != [] && log[|log| - 1] == Got(host.value.ticket) && !t.NoTicket?
      requires t.Stopped? ==> t.exc != ThreeHostsTried
      modifies this`host, this`open, this`log
      ensures Tracked() && o != Raise(ThreeHostsTried)
      ensures log == old(log) + AwaitLog(t, old(host.value.ticket))
      ensures o.Ok? <==> t.Ready? || Goes(t)
      ensures o.Ok? ==> host.Some?
    {
      var ticket := host.value.ticket;
      match t {
        case Ready(name) =>
          host := Some(Host(ticket, name));
          return Ok;
        case FoundClosed =>
          TicketCloses(made, open, log, host);
          open, log := open - {ticket}, log + [Closed(ticket)];
          return Ok;
        case GaveUpOpen(name) =>
          TicketGivenUp(made, open, log, host, name);
          log := log + [GivenUp(ticket)];
          host := Some(Host(ticket, name));
          return Ok;
        case Canceled(dropped) =>
          if dropped {
            TicketCloses(made, open, log, host);
            open, log, host := open - {ticket}, log + [Closed(ticket)], None;
          }
          return Raise(BuildCanceled);
        case Stopped(exc) =>
          return Raise(exc);
      }
    }

    /**
     The loop of _alloc_host, over the turns the environment has in store.  A wait that fails is
     followed by a new ticket that takes the place of the old one, whether or not that is closed.
     */
    method AllocHost(script: seq<Turn>) returns (o: Outcome)
      requires Tracked() && host.None? && Turns(script)
      modifies this`host, this`made, this`open, this`log
      ensures Tracked() && o != Raise(ThreeHostsTried)
      ensures o.Ok? ==> host.Some?
      ensures |script| == 2 && script[0].GaveUpOpen? && script[1].Ready? ==>
                o.Ok? && log == old(log) + [Got(old(made)), GivenUp(old(made)), Got(old(made) + 1)]
    {
      var i := 0;
      while true
        invariant 0 <= i < |script| && Tracked()
        invariant host.Some? ==> log[|log| - 1].GivenUp? || log[|log| - 1].Closed?
        invariant i == 0 ==> log == old(log) && made == old(made)
        invariant i == 1 && script[0].GaveUpOpen? ==>
                    made == old(made) + 1 && log == old(log) + [Got(old(made)), GivenUp(old(made))]
        decreases |script| - i
      {
        o := AllocTurn(script[i]);
        if !Goes(script[i]) {
          return;
        }
        i := i + 1;
      }
    }

    /** Since these counts, an attempt that was to be announced was, once, and in full if it got that far. */
    ghost predicate Announced(attempt: nat, inFull: bool, startUpdates0: nat, buildStarts0: nat, chrootStarts0: nat)
      reads this`startUpdates, this`buildStarts, this`chrootStarts
    {
      && startUpdates0 <= startUpdates <= startUpdates0 + 1
      && buildStarts0 <= buildStarts <= buildStarts0 + 1
      && chrootStarts0 <= chrootStarts <= chrootStarts0 + 1
      && (attempt > 0 ==> startUpdates == startUpdates0 && buildStarts == buildStarts0 && chrootStarts == chrootStarts0)
      && (attempt == 0 && inFull ==>
            startUpdates == startUpdates0 + 1 && buildStarts == buildStarts0 + 1 && chrootStarts == chrootStarts0 + 1)
    }

    /** Only the first attempt is announced. */
    method MarkRunning(attempt: nat) returns (o: Outcome)
      requires job.Some?
      modifies this`job, this`startUpdates, this`buildStarts, this`chrootStarts
      ensures o != Raise(ThreeHostsTried)
      ensures job == Some(Running)
      ensures Announced(attempt, o.Ok?, old(startUpdates), old(buildStarts), old(chrootStarts))
    {
      job := Some(Running);
      if attempt > 0 {
        return Ok;
      }
      startUpdates := startUpdates + 1;
      o := Any();
      if o.Raise? {
        return;
      }
      buildStarts := buildStarts + 1;
      o := Any();
      if o.Raise? {
        return;
      }
      chrootStarts := chrootStarts + 1;
      o := Any();
    }

    /** build(): lines 1005 to 1013, up to a host that is ready to work. */
    method Prepare() returns (o: Outcome)
      requires Tracked() && host.None?
      modifies this`host, this`made, this`open, this`log
      ensures Tracked() && o != Raise(ThreeHostsTried)
    {
      o := Any();                        // _wait_for_repos
      if o.Raise? { return; }
      o := CancelIfRequested();
      if o.Raise? { return; }
      o := Any();                        // rpmeta_predict_build_time
      if o.Raise? { return; }
      assert Turns([Ready(None)]);
      var script :| Turns(script);
      o := AllocHost(script);
      if o.Raise? { return; }
      o := Steps(3);                     // _alloc_ssh_connection, _check_vm, _fill_build_info_file
      if o.Raise? { return; }
      o := CancelIfRequested();
    }

    /** build(): lines 1005 to 1036, up to the release of the host. */
    method OnTheHost(attempt: nat) returns (o: Outcome)
      requires job.Some? && Tracked() && host.None?
      modifies this`job, this`host, this`startUpdates, this`buildStarts, this`chrootStarts, this`made, this`open, this`log
      ensures Tracked() && o != Raise(ThreeHostsTried)
      ensures job.Some? && (job == old(job) || job == Some(Running))
      ensures o.Ok? ==> host.None? && job == Some(Running)
      ensures Announced(attempt, o.Ok?, old(startUpdates), old(buildStarts), old(chrootStarts))
    {
      o := Prepare();
      if o.Raise? { return; }
      o := MarkRunning(attempt);
      if o.Raise? { return; }
      o := Steps(6);                     // user ssh, remote build, log transfer and its checks, keep alive, download
      if o.Raise? { return; }
      o := DropHost();
    }

    /** The next step of the success path, which joins the steps done when it returns. */
    method Do(step: Step, fate: Fate, ghost path: seq<Step>, ghost before: seq<Step>) returns (o: Outcome, ghost done: seq<Step>)
      requires Plausible(fate) && before + [step] <= path
      requires forall i :: 0 <= i < |before| ==> fate(before[i]).Ok?
      ensures o == fate(step) != Raise(ThreeHostsTried)
      ensures done == if o.Ok? then before + [step] else before
      ensures o.Ok? ==> forall i :: 0 <= i < |done| ==> fate(done[i]).Ok?
      ensures o.Raise? ==> Walked(fate, path, done, o)
    {
      o := fate(step);
      done := if o.Ok? then before + [step] else before;
      assert path[|before|] == (before + [step])[|before|] == step;
    }

    /** The steps after _check_build_success, in their order. */
    method SuccessSteps(fate: Fate) returns (o: Outcome, ghost done: seq<Step>)
      requires Plausible(fate) && fate(CheckSuccess).Ok?
      ensures o != Raise(ThreeHostsTried)
      ensures [CheckSuccess] <= done && Walked(fate, SuccessPath(doSign), done, o)
    {
      ghost var path := SuccessPath(doSign);
      o, done := StoreSteps(fate, path);
      if o.Raise? { return; }
      o, done := Do(GetDetails, fate, path, done);
      if o.Raise? { return; }
      o, done := Do(UpdateJob, fate, path, done);
      if o.Raise? { return; }
      o, done := Do(Validate, fate, path, done);
      if o.Raise? { return; }
      o, done := Do(AddPubkey, fate, path, done);
      if o.Raise? { return; }
      o, done := Do(Cleanup, fate, path, done);
    }

    /** The first half of them: the results are signed, uploaded, published and parsed. */
    method StoreSteps(fate: Fate, ghost path: seq<Step>) returns (o: Outcome, ghost done: seq<Step>)
      requires Plausible(fate) && fate(CheckSuccess).Ok? && Stored(doSign) < path
      ensures o != Raise(ThreeHostsTried) && [CheckSuccess] <= done
      ensures o.Ok? ==> done == Stored(doSign) && forall i :: 0 <= i < |done| ==> fate(done[i]).Ok?
      ensures o.Raise? ==> Walked(fate, path, done, o)
    {
      o, done := Ok, [CheckSuccess];
      if doSign {
        o, done := Do(Sign, fate, path, done);
        if o.Raise? { return; }
      }
      o, done := Do(Upload, fate, path, done);
      if o.Raise? { return; }
      o, done := Do(Createrepo, fate, path, done);
      if o.Raise? { return; }
      o, done := Do(ParseResults, fate, path, done);
    }

    /**
     build(): lines 1039 to 1063, with its `except Exception` and `finally`.  The status becomes
     "succeeded" exactly when every step of the success path returned, or an interrupt cut the path
     short after the success file was seen.
     */
    method Conclude(fate: Fate) returns (o: Outcome)
      requires job.Some? && Plausible(fate)
      modifies this`job, this`concluded
      ensures o != Raise(ThreeHostsTried)
      ensures |concluded| == |old(concluded)| + 1 && old(concluded) <= concluded
      ensures var c := concluded[|old(concluded)|];
              && Walked(fate, SuccessPath(doSign), c.done, c.end)
              && job == Some(if Earned(c, doSign) then Succeeded else Failed)
              && (o.Ok? ==> c.done == SuccessPath(doSign))
    {
      var failed := true;
      ghost var done: seq<Step>;
      o, done := Do(CheckSuccess, fate, SuccessPath(doSign), []);
      if o.Ok? {
        failed := false;
        o, done := SuccessSteps(fate);
      }
      concluded := concluded + [Conclusion(done, o)];
      if o.Raise? && o != Raise(Interrupt) {
        failed := true;
      }
      job := Some(if failed then Failed else Succeeded);
      var r := Any();                    // register_build_result
      if r.Raise? {
        o := r;
      }
    }

    /** What makes retry_the_build() try again. */
    static predicate AsksForRetry(o: Outcome) {
      o == Raise(BuildRetry) || o == Raise(SshConnectionError)
    }

    method Build(attempt: nat) returns (o: Outcome)
      requires job.Some? && SuccessEarned() && Tracked() && host.None?
      modifies this`job, this`host, this`startUpdates, this`buildStarts, this`chrootStarts, this`concluded,
               this`ends, this`retried, this`made, this`open, this`log
      ensures Tracked() && o != Raise(ThreeHostsTried)
      ensures job.Some? && SuccessEarned() && ends == old(ends) + [End(o, host)] && old(concluded) <= concluded
      ensures o.Ok? ==> job == Some(Succeeded)
      ensures retried == if o in {Raise(BuildRetry), Raise(SshConnectionError)} then old(retried) + [host] else old(retried)
      ensures Announced(attempt, o.Ok?, old(startUpdates), old(buildStarts), old(chrootStarts))
    {
      o := OnTheHost(attempt);
      if o.Ok? {
        var calm: Fate := _ => Ok;
        assert Plausible(calm);
        var fate :| Plausible(fate);
        o := Conclude(fate);
        assert concluded[|old(concluded)|] in concluded;
      }
      if AsksForRetry(o) {
        retried := retried + [host];
      }
      ends := ends + [End(o, host)];
    }

    /** The start was announced at most once. */
    ghost predicate StartedOnce()
      reads this
    {
      startUpdates <= 1 && buildStarts <= 1 && chrootStarts <= 1
    }

    /**
     What the end of an attempt leads to: the two exceptions to another attempt, if a host was in hand
     and is released; anything else is passed on.
     */
    predicate Answered(r: Option<Outcome>, e: End) {
      if e.outcome in {Raise(BuildRetry), Raise(SshConnectionError)}
      then r != Some(Ok) && (r.None? ==> e.host.Some?) && (releaseWorks && e.host.Some? ==> r.None?) && (e.host.None? ==> r == Some(Raise(OtherError)))
      else r == Some(e.outcome)
    }

    /** One attempt and, when it asks for a retry, the note of its host and the release of it. */
    method TryOnce(attempt: nat, seenHosts: set<Option<string>>) returns (r: Option<Outcome>, seen: set<Option<string>>)
      requires job.Some? && SuccessEarned() && Tracked() && host.None? && seenHosts == Names(retried)
      modifies this
      ensures job.Some? && SuccessEarned() && Tracked() && reports == old(reports)
      ensures |ends| == |old(ends)| + 1 && old(ends) <= ends
      ensures var e := ends[|old(ends)|];
              && Answered(r, e)
              && retried == if e.outcome in {Raise(BuildRetry), Raise(SshConnectionError)} then old(retried) + [e.host] else old(retried)
      ensures r.None? ==> host.None? && seen == Names(retried) && |retried| == |old(retried)| + 1 && |seen| <= |seenHosts| + 1
      ensures r != Some(Raise(ThreeHostsTried)) && (r == Some(Ok) ==> job == Some(Succeeded))
      ensures r.Some? && releaseWorks ==> Names(retried) == Names(old(retried))
      ensures Announced(attempt, r == Some(Ok), old(startUpdates), old(buildStarts), old(chrootStarts))
    {
      hide Tracked, SuccessEarned, Announced;
      var o := Build(attempt);
      if !AsksForRetry(o) {
        return Some(o), seenHosts;
      }
      r, seen := PutAside(seenHosts);
    }

    /** Its `except` clause, up to the release. */
    method PutAside(seenHosts: set<Option<string>>) returns (r: Option<Outcome>, seen: set<Option<string>>)
      requires Tracked() && retried != [] && host == retried[|retried| - 1] && seenHosts == Names(retried[..|retried| - 1])
      modifies this`host, this`open, this`log
      ensures Tracked() && r != Some(Ok) && r != Some(Raise(ThreeHostsTried))
      ensures r.None? ==> old(host).Some? && host.None? && seen == Names(retried) && |seen| <= |seenHosts| + 1
      ensures releaseWorks && old(host).Some? ==> r.None?
      ensures old(host).None? ==> r == Some(Raise(OtherError)) && Names(retried) == seenHosts
    {
      seen := seenHosts;
      if host.None? {
        return Some(Raise(OtherError)), seen;     // None has no attribute 'hostname'
      }
      seen := seen + {host.value.hostname};
      var d := DropHost();
      if d.Raise? {
        return Some(d), seen;
      }
      r := None;
    }

    /**
     The retry loop; None when it is still retrying after `patience` attempts (on one or two host
     names it may go on forever).  It gives up with its BackendError exactly when three host names
     are in the log of the attempts that asked for a retry, unless the release of a host raises.
     */
    method RetryTheBuild(patience: nat) returns (r: Option<Outcome>)
      requires job.Some? && SuccessEarned() && Tracked() && host.None? && retried == [] && ends == []
      requires startUpdates == buildStarts == chrootStarts == 0
      modifies this
      ensures job.Some? && SuccessEarned() && Tracked() && StartedOnce() && reports == old(reports)
      ensures r == Some(Raise(ThreeHostsTried)) ==> |Names(retried)| == 3 && host.None?
      ensures releaseWorks ==> (|Names(retried)| >= 3 <==> r == Some(Raise(ThreeHostsTried)))
      ensures |retried| <= |ends| && forall k :: 0 <= k < |retried| ==> retried[k] == ends[k].host
      ensures r == Some(Ok) ==> job == Some(Succeeded) && ends != [] && ends[|ends| - 1].outcome.Ok?
      ensures r == Some(Ok) && |ends| == 1 ==> startUpdates == buildStarts == chrootStarts == 1
      ensures r.None? ==> |ends| == patience && |retried| == patience && OnlyRetries(ends, |ends|)
      ensures r.Some? ==> ends != [] && OnlyRetries(ends, |ends| - 1)
      ensures r.Some? && r != Some(Raise(ThreeHostsTried)) ==> Answered(r, ends[|ends| - 1])
      ensures r == Some(Raise(ThreeHostsTried)) ==> OnlyRetries(ends, |ends|)
    {
      hide Tracked, SuccessEarned;
      var attempt := 0;
      var seenHosts: set<Option<string>> := {};
      while attempt < patience
        invariant job.Some? && SuccessEarned() && Tracked() && host.None? && StartedOnce() && reports == old(reports)
        invariant attempt <= patience && |ends| == |retried| == attempt && OnlyRetries(ends, attempt)
        invariant forall k :: 0 <= k < attempt ==> retried[k] == ends[k].host
        invariant attempt == 0 ==> startUpdates == buildStarts == chrootStarts == 0
        invariant seenHosts == Names(retried) && |seenHosts| < MAX_HOST_ATTEMPTS
      {
        r, seenHosts := TryOnce(attempt, seenHosts);
        if r.Some? {
          return;
        }
        attempt := attempt + 1;
        if |seenHosts| >= MAX_HOST_ATTEMPTS {
          return Some(Raise(ThreeHostsTried));
        }
      }
      return None;
    }

    method HandleBuild(patience: nat) returns (r: Option<Outcome>)
      requires job.None? && host.None? && Tracked() && retried == [] && ends == []
      requires startUpdates == buildStarts == chrootStarts == 0
      modifies this
      ensures Tracked() && (job.Some? ==> SuccessEarned())
      ensures StartedOnce() && reports == old(reports)
      ensures r == Some(Ok) ==> job == Some(Succeeded)
      ensures r.None? ==> |ends| == patience
      ensures ends != [] ==> job.Some? && OnlyRetries(ends, |ends| - 1)
      ensures ends != [] && ends[|ends| - 1].outcome.Ok? ==> r == Some(Ok)
      ensures ends == [] && r.Some? ==> job != Some(Succeeded)
    {
      var o := Steps(2);                 // MessageSender, the frontend's answer
      if o.Raise? {
        return Some(o);
      }
      job := Some(Unset);
      o := Steps(2);                     // the rest of _get_build_job, _setup_resultdir_and_logging
      if o.Raise? {
        return Some(o);
      }
      job := Some(Starting);
      o := Any();                        // starting_build
      if o.Raise? {
        return Some(o);
      }
      r := RetryTheBuild(patience);
    }

    /** Anything but a final state is reported as failed. */
    method MarkFinished() returns (o: Outcome)
      requires job.Some?
      modifies this`job, this`reports
      ensures job == Some(if old(job) == Some(Succeeded) then Succeeded else Failed)
      ensures reports == old(reports) + [job.value]
    {
      if job != Some(Succeeded) && job != Some(Failed) {
        job := Some(Failed);
      }
      reports := reports + [job.value];
      o := Steps(2);                     // the update and the announcement
    }

    /**
     The entry point with its `finally`; `ended` is false when the retry loop is still running.
     The final state is reported at most once, "succeeded" only when an attempt earned it.  If the
     release call does not raise, a worker that ends has no host in hand, a job it got has ended,
     and the tickets still open are exactly those that were given up open and then overwritten.
     */
    method HandleTask(patience: nat) returns (ended: bool)
      requires job.None? && host.None? && Tracked() && retried == [] && reports == [] && ends == [] && concluded == []
      requires startUpdates == buildStarts == chrootStarts == 0
      modifies this
      ensures StartedOnce() && |reports| <= 1
      ensures !ended ==> |ends| == patience
      ensures ends != [] ==> OnlyRetries(ends, |ends| - 1)
      ensures ended && releaseWorks && ends != [] && ends[|ends| - 1].outcome.Ok? ==> reports == [Succeeded]
      ensures Succeeded in reports ==> exists c :: c in concluded && Earned(c, doSign)
      ensures ended && releaseWorks ==>
                && host.None? && open == Overwritten(log)
                && (job.Some? ==> (job == Some(Succeeded) || job == Some(Failed)) && reports == [job.value])
      ensures job.None? ==> reports == []
    {
      var r := HandleBuild(patience);
      if r.None? {
        return false;
      }
      var d := DropHost();
      if d.Raise? {
        return true;
      }
      if job.Some? {
        var _ := MarkFinished();
      }
      return true;
    }
  }

  /**
   A ticket that stays open for good: the first ticket is ready but its data cannot be read, so the
   wait gives up on it and the loop asks for another one, which is used and released.
   */
  method LostTicket() returns (w: BuildWorker)
    ensures w.releaseWorks && w.host.None? && w.open == {0}
  {
    w := new BuildWorker(true, true);
    var script := [GaveUpOpen(Some("builder")), Ready(Some("builder"))];
    var o := w.AllocHost(script);
    OverwrittenAppend([Got(0), GivenUp(0)], Got(1));
    assert w.log == [Got(0), GivenUp(0)] + [Got(1)];
    assert Overwritten([Got(0), GivenUp(0)]) == {};
    o := w.DropHost();
  }

  /**
   A build that counts as succeeded although nothing was uploaded: an interrupt comes during the
   upload, after the success file was seen.
   */
  method InterruptedSuccess() returns (w: BuildWorker)
    ensures w.job == Some(Succeeded) && w.concluded == [Conclusion([CheckSuccess, Sign], Raise(Interrupt))]
  {
    w := new BuildWorker(true, true);
    w.job := Some(Running);
    var fate: Fate := s => if s == Upload then Raise(Interrupt) else Ok;
    var _ := w.Conclude(fate);
    ghost var c, path := w.concluded[0], SuccessPath(true);
    StopsAt(fate, path, c.done, c.end, 2);
    assert path[..2] == [CheckSuccess, Sign];
    assert w.concluded == [c];
  }

  /**
   What is uploaded was signed where signing is asked for, the repository is made of what was
   uploaded, and the job is updated only after that.
   */
  lemma NothingUnsigned(fate: Fate, doSign: bool, done: seq<Step>, o: Outcome)
    requires Walked(fate, SuccessPath(doSign), done, o)
    ensures done != [] ==> done[0] == CheckSuccess
    ensures doSign && Upload in done ==> Sign in done && fate(Sign).Ok?
    ensures !doSign ==> Sign !in done
    ensures Createrepo in done ==> Upload in done && fate(Upload).Ok?
    ensures UpdateJob in done ==> Createrepo in done && ParseResults in done && GetDetails in done
    ensures o.Ok? ==> Validate in done && AddPubkey in done && Cleanup in done
  {
    var path := SuccessPath(doSign);
    var k := if doSign then 1 else 0;
    assert path[0] == CheckSuccess && path[k + 1] == Upload && path[k + 2] == Createrepo && path[k + 3] == ParseResults;
    assert path[k + 4] == GetDetails && path[k + 5] == UpdateJob && path[k + 6] == Validate && path[k + 7] == AddPubkey;
    assert path[k + 8] == Cleanup && |path| == k + 9 && (doSign ==> path[1] == Sign);
    forall i | 0 <= i < |done| ensures done[i] == path[i] {
    }
  }

  /** The walk stops at the first step that raises. */
  lemma StopsAt(fate: Fate, path: seq<Step>, done: seq<Step>, o: Outcome, n: nat)
    requires Walked(fate, path, done, o) && n < |path| && fate(path[n]).Raise?
    requires forall i :: 0 <= i < n ==> fate(path[i]).Ok?
    ensures done == path[..n] && o == fate(path[n])
  {
    assert forall i :: 0 <= i < |done| ==> fate(path[i]).Ok?;
    assert |done| <= n;
  }
}
