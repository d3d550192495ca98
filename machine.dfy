/**
 * The machine-control object (CAM_Machine): its configuration strings, the flag word and
 * the `tPong` timestamp that the GUI action EnableMachine, the connection thread
 * (MachineThread), the inactivity thread (InactivityCheck) and the detach handler
 * (Detached) update, and its Save/Load record.
 *
 * Each thread's `for (;;)` body is one step. The network, the tick clock and the sleeps
 * are parameters: whether connect and the "version" query succeed, the tick count `now`,
 * and which thread reaches the top of its loop during each second the detach handler
 * sleeps. The lock is not modelled: every step runs alone.
 */
module Machine {
  import opened Wrappers
  import opened DataSource
  import opened MachineFlags

  /** Liveness window of the inactivity check, in ticks (milliseconds). */
  const LIVENESS_WINDOW: u32 := 2000

  /** Number of one-second polls of the detach wait. */
  const DETACH_POLLS: nat := 10

  /** The messages the machine code shows, as tags. */
  datatype Msg =
    | HostPortNotSpecified   // error dialog of EnableMachine
    | UserPassNotSpecified   // error dialog of EnableMachine
    | MachineEnabled         // status console
    | ConnectError           // status console: the session's error text
    | MachineOnline          // status console
    | MachineBusyOrOffline   // status console
    | ThreadsNotResponding   // standard error, from the detach wait

  /** The session calls one connection cycle makes, in order. */
  datatype NetCall = Connect | Query | Disconnect

  /** The controller settings EnableMachine checks. */
  datatype Settings = Settings(host: string, port: string, user: string, pass: string)

  predicate HostPortGiven(c: Settings) {
    c.host != "" && c.port != ""
  }

  predicate CredentialsGiven(c: Settings) {
    c.user != "" && c.pass != ""
  }

  /*** EnableMachine ***/

  /** The flag word EnableMachine leaves: ENABLED survives only if every setting is
      given, and no other bit is touched. */
  function EnabledFlags(c: Settings, flags: Flags): (r: Flags)
    ensures r.(enabled := flags.enabled) == flags
    ensures r.enabled <==> flags.enabled && HostPortGiven(c) && CredentialsGiven(c)
    ensures HostPortGiven(c) && CredentialsGiven(c) ==> r == flags
  {
    var f := if HostPortGiven(c) then flags else flags.(enabled := false);
    if CredentialsGiven(c) then f else f.(enabled := false)
  }

  /** The messages EnableMachine shows: one error per missing pair of settings, then
      "Machine enabled" on the console iff ENABLED is still set. */
  function EnableMessages(c: Settings, flags: Flags, console: bool): (r: seq<Msg>)
    ensures HostPortNotSpecified in r <==> !HostPortGiven(c)
    ensures UserPassNotSpecified in r <==> !CredentialsGiven(c)
    ensures MachineEnabled in r <==> console && EnabledFlags(c, flags).enabled
    ensures MachineEnabled in r ==> r == [MachineEnabled]
  {
    (if HostPortGiven(c) then [] else [HostPortNotSpecified])
    + (if CredentialsGiven(c) then [] else [UserPassNotSpecified])
    + (if console && EnabledFlags(c, flags).enabled then [MachineEnabled] else [])
  }

  /*** One iteration of each background thread ***/

  /** What one iteration of a background thread leaves behind: the flag word, the
      timestamp, the session calls made, the console messages, and whether the thread
      exited. */
  datatype Cycle = Cycle(flags: Flags, tPong: u32, calls: seq<NetCall>, log: seq<Msg>, exits: bool)

  /** One iteration of the connection thread. */
  function SupervisorCycle(flags: Flags, tPong: u32, console: bool, connects: bool, answers: bool,
                           now: u32): (r: Cycle)
    ensures flags.detaching ==> r == Cycle(flags.(detached1 := true), tPong, [], [], true)
    ensures !flags.detaching ==> !r.exits && r.flags == flags
    ensures Connect in r.calls <==> !flags.detaching && flags.enabled
    ensures Disconnect in r.calls <==> Connect in r.calls && connects
    ensures Query in r.calls <==> Disconnect in r.calls
    ensures r.calls == [] || r.calls == [Connect] || r.calls == [Connect, Query, Disconnect]
    ensures r.tPong == if Query in r.calls && answers then now else tPong
    ensures r.log == if Connect in r.calls && !connects && console then [ConnectError] else []
  {
    if flags.detaching then
      Cycle(flags.(detached1 := true), tPong, [], [], true)
    else if !flags.enabled then
      Cycle(flags, tPong, [], [], false)
    else if !connects then
      Cycle(flags, tPong, [Connect], if console then [ConnectError] else [], false)
    else
      Cycle(flags, if answers then now else tPong, [Connect, Query, Disconnect], [], false)
  }

  /** The flag word one iteration of the inactivity thread leaves when DETACHING is clear,
      `elapsed` ticks after the last answered probe: BUSY with hysteresis around the
      liveness window, and no other bit touched. */
  function BusyAfter(flags: Flags, elapsed: u32): (r: Flags)
    ensures r.(busy := flags.busy) == flags
    ensures (flags.busy && !r.busy) <==>
            (flags.enabled && flags.busy && elapsed < LIVENESS_WINDOW)
    ensures (!flags.busy && r.busy) <==>
            (flags.enabled && !flags.busy && elapsed > LIVENESS_WINDOW)
    ensures (!flags.enabled || elapsed == LIVENESS_WINDOW) ==> r == flags
  {
    if !flags.enabled then flags
    else if flags.busy then
      (if elapsed < LIVENESS_WINDOW then flags.(busy := false) else flags)
    else if elapsed > LIVENESS_WINDOW then flags.(busy := true) else flags
  }

  /** One iteration of the inactivity thread. */
  function MonitorCycle(flags: Flags, tPong: u32, console: bool, now: u32): (r: Cycle)
    ensures r.calls == [] && r.tPong == tPong
    ensures flags.detaching ==> r == Cycle(flags.(detached2 := true), tPong, [], [], true)
    ensures !flags.detaching ==> !r.exits && r.flags == BusyAfter(flags, Elapsed(now, tPong))
    ensures !flags.detaching && console && r.flags != flags ==>
              r.log == [if r.flags.busy then MachineBusyOrOffline else MachineOnline]
    ensures r.flags == flags || !console ==> r.log == []
  {
    if flags.detaching then
      Cycle(flags.(detached2 := true), tPong, [], [], true)
    else
      var f := BusyAfter(flags, Elapsed(now, tPong));
      var log := if f == flags || !console then []
                 else if f.busy then [MachineBusyOrOffline] else [MachineOnline];
      Cycle(f, tPong, [], log, false)
  }

  /*** The detach wait ***/

  /** Which thread reaches the top of its loop, and so sees DETACHING, during one second
      of the detach wait. */
  datatype Wake = Wake(supervisor: bool, monitor: bool)

  /** The flag word after the `i`-th second of the wait: each thread that reached the
      top of its loop during that second has set its completion bit (no thread runs
      beyond the end of `wakes`). */
  function Acked(f: Flags, wakes: seq<Wake>, i: nat): (r: Flags)
    ensures r.(detached1 := f.detached1, detached2 := f.detached2) == f
    ensures r.detached1 <==> f.detached1 || (i < |wakes| && wakes[i].supervisor)
    ensures r.detached2 <==> f.detached2 || (i < |wakes| && wakes[i].monitor)
  {
    if i < |wakes| then
      f.(detached1 := f.detached1 || wakes[i].supervisor,
         detached2 := f.detached2 || wakes[i].monitor)
    else f
  }

  /** The flag word the `j`-th poll of the wait reads; poll 0 comes right after DETACHING
      was set. */
  function PolledFlags(flags0: Flags, wakes: seq<Wake>, j: nat): (f: Flags)
    ensures f.detaching
    ensures f.(detached1 := flags0.detached1, detached2 := flags0.detached2)
            == flags0.(detaching := true)
    decreases j
  {
    if j == 0 then flags0.(detaching := true)
    else Acked(PolledFlags(flags0, wakes, j - 1), wakes, j - 1)
  }

  /** The test that ends the wait. As written it is `flags & DETACHED`, which holds as
      soon as either completion bit is set; `awaitBoth` is the corrected test that both
      threads have exited. */
  predicate Drained(f: Flags, awaitBoth: bool) {
    if awaitBoth then f.detached1 && f.detached2 else f.detached1 || f.detached2
  }

  /** The first poll from `j` on whose test succeeds, or DETACH_POLLS when none of the
      polls does. */
  function FirstDrainedPoll(flags0: Flags, wakes: seq<Wake>, awaitBoth: bool, j: nat): (k: nat)
    requires j <= DETACH_POLLS
    ensures j <= k <= DETACH_POLLS
    ensures k < DETACH_POLLS ==> Drained(PolledFlags(flags0, wakes, k), awaitBoth)
    ensures forall i :: j <= i < k ==> !Drained(PolledFlags(flags0, wakes, i), awaitBoth)
    decreases DETACH_POLLS - j
  {
    if j == DETACH_POLLS then DETACH_POLLS
    else if Drained(PolledFlags(flags0, wakes, j), awaitBoth) then j
    else FirstDrainedPoll(flags0, wakes, awaitBoth, j + 1)
  }

  /** A thread has acknowledged the detach request during the first `j` seconds. */
  predicate SupervisorAcked(wakes: seq<Wake>, j: nat) {
    exists i :: 0 <= i < j && i < |wakes| && wakes[i].supervisor
  }

  predicate MonitorAcked(wakes: seq<Wake>, j: nat) {
    exists i :: 0 <= i < j && i < |wakes| && wakes[i].monitor
  }

  /** Each completion bit a poll reads was either already set or set by its thread
      during an earlier second. */
  lemma {:induction false} PolledBits(flags0: Flags, wakes: seq<Wake>, j: nat)
    ensures PolledFlags(flags0, wakes, j).detached1 <==> flags0.detached1 || SupervisorAcked(wakes, j)
    ensures PolledFlags(flags0, wakes, j).detached2 <==> flags0.detached2 || MonitorAcked(wakes, j)
    decreases j
  {
    if j > 0 {
      PolledBits(flags0, wakes, j - 1);
      if SupervisorAcked(wakes, j) && !SupervisorAcked(wakes, j - 1) {
        assert j - 1 < |wakes| && wakes[j - 1].supervisor;
      }
      if MonitorAcked(wakes, j) && !MonitorAcked(wakes, j - 1) {
        assert j - 1 < |wakes| && wakes[j - 1].monitor;
      }
    }
  }

  /** The wait ends before its last poll iff the last poll would have succeeded: bits are
      only ever added while it waits. */
  lemma DrainedByLastPoll(flags0: Flags, wakes: seq<Wake>, awaitBoth: bool)
    ensures FirstDrainedPoll(flags0, wakes, awaitBoth, 0) < DETACH_POLLS <==>
            Drained(PolledFlags(flags0, wakes, DETACH_POLLS - 1), awaitBoth)
  {
    var k := FirstDrainedPoll(flags0, wakes, awaitBoth, 0);
    var last := DETACH_POLLS - 1;
    PolledBits(flags0, wakes, last);
    if k < DETACH_POLLS {
      PolledBits(flags0, wakes, k);
      assert SupervisorAcked(wakes, k) ==> SupervisorAcked(wakes, last);
      assert MonitorAcked(wakes, k) ==> MonitorAcked(wakes, last);
    }
  }

  /** As written, the wait ends early iff some completion bit was already set or either
      thread acknowledged within the first nine seconds. */
  lemma DetachEndsOnEitherThread(flags0: Flags, wakes: seq<Wake>)
    ensures FirstDrainedPoll(flags0, wakes, false, 0) < DETACH_POLLS <==>
            flags0.detached1 || flags0.detached2 || SupervisorAcked(wakes, DETACH_POLLS - 1)
            || MonitorAcked(wakes, DETACH_POLLS - 1)
  {
    DrainedByLastPoll(flags0, wakes, false);
    PolledBits(flags0, wakes, DETACH_POLLS - 1);
  }

  /** The wait awaiting both bits ends early iff each thread has exited: its bit was
      already set or it acknowledged within the first nine seconds. */
  lemma DetachAwaitingBothEndsOnBothThreads(flags0: Flags, wakes: seq<Wake>)
    ensures FirstDrainedPoll(flags0, wakes, true, 0) < DETACH_POLLS <==>
            (flags0.detached1 || SupervisorAcked(wakes, DETACH_POLLS - 1))
            && (flags0.detached2 || MonitorAcked(wakes, DETACH_POLLS - 1))
  {
    DrainedByLastPoll(flags0, wakes, true);
    PolledBits(flags0, wakes, DETACH_POLLS - 1);
  }

  /** As written, the wait returns at its second poll when only the connection thread
      has exited during the first second: the inactivity thread's bit is still clear. */
  lemma DetachReturnsWhileMonitorRuns()
    ensures FirstDrainedPoll(NO_FLAGS.(enabled := true), [Wake(true, false)], false, 0) == 1
    ensures !PolledFlags(NO_FLAGS.(enabled := true), [Wake(true, false)], 1).detached2
  {
    assert !Drained(PolledFlags(NO_FLAGS.(enabled := true), [Wake(true, false)], 0), false);
    assert Drained(PolledFlags(NO_FLAGS.(enabled := true), [Wake(true, false)], 1), false);
  }

  /** Under normal operation both threads see DETACHING within their one-second sleep,
      and the corrected wait ends at its second poll. */
  lemma PromptThreadsEndTheWait(flags0: Flags, wakes: seq<Wake>)
    requires !flags0.detached1 && !flags0.detached2
    requires |wakes| > 0 && wakes[0] == Wake(true, true)
    ensures FirstDrainedPoll(flags0, wakes, true, 0) == 1
  {
    assert !Drained(PolledFlags(flags0, wakes, 0), true);
    assert Drained(PolledFlags(flags0, wakes, 1), true);
  }

  /*** The saved record ***/

  datatype MachineRecord =
    MachineRecord(descr: string, flags: Flags, host: string, port: string, user: string, pass: string)

  predicate FitsBuffers(m: MachineRecord) {
    && Fits(m.descr, DESCR_MAX) && Fits(m.host, HOSTNAME_MAX) && Fits(m.port, PORT_MAX)
    && Fits(m.user, USERNAME_MAX) && Fits(m.pass, PASSWORD_MAX)
  }

  /** The record as loading it into the fixed buffers leaves it. */
  function Clipped(m: MachineRecord): (r: MachineRecord)
    ensures FitsBuffers(r)
    ensures FitsBuffers(m) ==> r == m
    ensures r.flags == m.flags
    ensures ClippedFrom(r.descr, m.descr, DESCR_MAX) && ClippedFrom(r.host, m.host, HOSTNAME_MAX)
    ensures ClippedFrom(r.port, m.port, PORT_MAX) && ClippedFrom(r.user, m.user, USERNAME_MAX)
    ensures ClippedFrom(r.pass, m.pass, PASSWORD_MAX)
  {
    MachineRecord(Clip(m.descr, DESCR_MAX), m.flags, Clip(m.host, HOSTNAME_MAX),
                  Clip(m.port, PORT_MAX), Clip(m.user, USERNAME_MAX), Clip(m.pass, PASSWORD_MAX))
  }

  /** What Save writes: descr, flags, host, port, user, pass. */
  function EncodeMachine(m: MachineRecord): (ds: Stream)
    ensures |ds| == 6
  {
    [Str(m.descr), U32(Word(m.flags)), Str(m.host), Str(m.port), Str(m.user), Str(m.pass)]
  }

  /** What Load reads: the same six values in the same order, or nothing if the stream
      does not hold them. */
  function DecodeMachine(ds: Stream): (r: Option<Read<MachineRecord>>)
    ensures r.Some? <==> (|ds| >= 6 && ds[0].Str? && ds[1].U32? && ds[2].Str? && ds[3].Str?
                          && ds[4].Str? && ds[5].Str?)
    ensures r.Some? ==> r.value.rest == ds[6..] && FitsBuffers(r.value.value)
    ensures r.Some? ==> r.value.value == Clipped(MachineRecord(ds[0].s, FromWord(ds[1].n), ds[2].s,
                                                                 ds[3].s, ds[4].s, ds[5].s))
  {
    var descr :- ReadString(ds, DESCR_MAX);
    var flags :- ReadU32(descr.rest);
    var host :- ReadString(flags.rest, HOSTNAME_MAX);
    var port :- ReadString(host.rest, PORT_MAX);
    var user :- ReadString(port.rest, USERNAME_MAX);
    var pass :- ReadString(user.rest, PASSWORD_MAX);
    Some(Read(MachineRecord(descr.value, FromWord(flags.value), host.value, port.value,
                            user.value, pass.value), pass.rest))
  }

  /** Load after Save gives back every field, truncated to its buffer, and leaves what
      followed the record. */
  lemma MachineRoundTrip(m: MachineRecord, rest: Stream)
    ensures DecodeMachine(EncodeMachine(m) + rest) == Some(Read(Clipped(m), rest))
    ensures FitsBuffers(m) ==> DecodeMachine(EncodeMachine(m) + rest) == Some(Read(m, rest))
  {
    var ds := EncodeMachine(m) + rest;
    assert ds[6..] == rest;
    FlagsThroughWord(m.flags);
  }

  /*** The object ***/

  class Machine {
    var descr: string
    var host: string
    var port: string
    var user: string
    var pass: string
    var flags: Flags
    var tPong: u32
    var console: bool        // a status console is open (`cons` is not NULL)
    var messages: seq<Msg>   // what the machine has shown, oldest first

    function Config(): Settings
      reads this
    {
      Settings(host, port, user, pass)
    }

    function Record(): MachineRecord
      reads this
    {
      MachineRecord(descr, flags, host, port, user, pass)
    }

    ghost predicate Valid()
      reads this
    {
      FitsBuffers(Record())
    }

    /** Init: no flags, empty strings, the controller daemon's default port. `tPong` is
        left as the allocation had it. */
    constructor Init(defaultPort: string, tPong0: u32)
      ensures Valid()
      ensures flags == NO_FLAGS && descr == "" && host == "" && user == "" && pass == ""
      ensures port == Clip(defaultPort, PORT_MAX)
      ensures tPong == tPong0 && !console && messages == []
    {
      flags := NO_FLAGS;
      descr := "";
      host := "";
      user := "";
      pass := "";
      port := Clip(defaultPort, PORT_MAX);
      console := false;
      tPong := tPong0;
      messages := [];
    }

    /** The edit window creates the status console. */
    method OpenConsole()
      modifies this
      ensures console
      ensures Record() == old(Record()) && tPong == old(tPong) && messages == old(messages)
    {
      console := true;
    }

    /** CAM_MachineLog: a message reaches the log only when a console is open. */
    method Log(m: Msg)
      modifies this
      ensures messages == old(messages) + if console then [m] else []
      ensures Record() == old(Record()) && tPong == old(tPong) && console == old(console)
    {
      if console {
        messages := messages + [m];
      }
    }

    method EnableMachine()
      modifies this
      ensures flags == EnabledFlags(old(Config()), old(flags))
      ensures messages == old(messages) + EnableMessages(old(Config()), old(flags), console)
      ensures Config() == old(Config()) && descr == old(descr)
      ensures tPong == old(tPong) && console == old(console)
    {
      var f, shown := flags, [];
      if host == "" || port == "" {
        shown := shown + [HostPortNotSpecified];
        f := f.(enabled := false);
      }
      if user == "" || pass == "" {
        shown := shown + [UserPassNotSpecified];
        f := f.(enabled := false);
      }
      flags := f;
      messages := messages + shown;
      if f.enabled {
        Log(MachineEnabled);
      }
    }

    /** One iteration of MachineThread's loop. */
    method MachineThreadStep(connects: bool, answers: bool, now: u32) returns (exits: bool, calls: seq<NetCall>)
      modifies this
      ensures var c := SupervisorCycle(old(flags), old(tPong), old(console), connects, answers, now);
              flags == c.flags && tPong == c.tPong && exits == c.exits && calls == c.calls
              && messages == old(messages) + c.log
      ensures Config() == old(Config()) && descr == old(descr) && console == old(console)
    {
      if flags.detaching {
        flags := flags.(detached1 := true);
        return true, [];
      }
      var doConnect := flags.enabled;
      exits, calls := false, [];
      if !doConnect {
        return;
      }
      calls := calls + [Connect];
      if !connects {
        Log(ConnectError);
        return;
      }
      calls := calls + [Query];
      if answers {
        tPong := now;
      }
      calls := calls + [Disconnect];
    }

    /** One iteration of InactivityCheck's loop. */
    method InactivityCheckStep(now: u32) returns (exits: bool)
      modifies this
      ensures var c := MonitorCycle(old(flags), old(tPong), old(console), now);
              flags == c.flags && exits == c.exits && messages == old(messages) + c.log
      ensures Config() == old(Config()) && descr == old(descr) && console == old(console)
      ensures tPong == old(tPong)
    {
      if flags.detaching {
        flags := flags.(detached2 := true);
        return true;
      }
      exits := false;
      if !flags.enabled {
        return;
      }
      if (flags.busy) {
        if Elapsed(now, tPong) < LIVENESS_WINDOW {
          Log(MachineOnline);
          flags := flags.(busy := false);
        }
      } else {
        if Elapsed(now, tPong) > LIVENESS_WINDOW {
          Log(MachineBusyOrOffline);
          flags := flags.(busy := true);
        }
      }
    }

    /** The detach handler: set DETACHING, then poll up to DETACH_POLLS times, sleeping a
        second after each poll that fails. `responded` says whether a poll succeeded and
        `polls` how many polls were made. */
    method Detached(wakes: seq<Wake>) returns (responded: bool, polls: nat)
      modifies this
      ensures var k := FirstDrainedPoll(old(flags), wakes, false, 0);
              && responded == (k < DETACH_POLLS)
              && polls == (if responded then k + 1 else DETACH_POLLS)
              && flags == PolledFlags(old(flags), wakes, if responded then k else DETACH_POLLS)
      ensures messages == old(messages) + if responded then [] else [ThreadsNotResponding]
      ensures Config() == old(Config()) && descr == old(descr) && console == old(console)
      ensures tPong == old(tPong)
    {
      ghost var flags0 := flags;
      flags := flags.(detaching := true);
      var i := 0;
      while i < DETACH_POLLS
        invariant 0 <= i <= DETACH_POLLS
        invariant flags == PolledFlags(flags0, wakes, i)
        invariant forall j :: 0 <= j < i ==> !Drained(PolledFlags(flags0, wakes, j), false)
        invariant Config() == old(Config()) && descr == old(descr) && console == old(console)
        invariant tPong == old(tPong) && messages == old(messages)
      {
        if flags.detached1 || flags.detached2 {
          assert FirstDrainedPoll(flags0, wakes, false, 0) == i;
          return true, i + 1;
        }
        flags := Acked(flags, wakes, i);
        i := i + 1;
      }
      assert FirstDrainedPoll(flags0, wakes, false, 0) == DETACH_POLLS;
      messages := messages + [ThreadsNotResponding];
      responded, polls := false, DETACH_POLLS;
    }

    /** The detach wait with the corrected test: it ends only once both threads have
        set their completion bits. */
    method DetachedAwaitingBoth(wakes: seq<Wake>) returns (responded: bool, polls: nat)
      modifies this
      ensures var k := FirstDrainedPoll(old(flags), wakes, true, 0);
              && responded == (k < DETACH_POLLS)
              && polls == (if responded then k + 1 else DETACH_POLLS)
              && flags == PolledFlags(old(flags), wakes, if responded then k else DETACH_POLLS)
      ensures responded ==> flags.detached1 && flags.detached2
      ensures messages == old(messages) + if responded then [] else [ThreadsNotResponding]
      ensures Config() == old(Config()) && descr == old(descr) && console == old(console)
      ensures tPong == old(tPong)
    {
      ghost var flags0 := flags;
      flags := flags.(detaching := true);
      var i := 0;
      while i < DETACH_POLLS
        invariant 0 <= i <= DETACH_POLLS
        invariant flags == PolledFlags(flags0, wakes, i)
        invariant forall j :: 0 <= j < i ==> !Drained(PolledFlags(flags0, wakes, j), true)
        invariant Config() == old(Config()) && descr == old(descr) && console == old(console)
        invariant tPong == old(tPong) && messages == old(messages)
      {
        if flags.detached1 && flags.detached2 {
          assert FirstDrainedPoll(flags0, wakes, true, 0) == i;
          return true, i + 1;
        }
        flags := Acked(flags, wakes, i);
        i := i + 1;
      }
      assert FirstDrainedPoll(flags0, wakes, true, 0) == DETACH_POLLS;
      messages := messages + [ThreadsNotResponding];
      responded, polls := false, DETACH_POLLS;
    }

    /** Save appends the record to the data source. */
    method Save(out: Stream) returns (out': Stream)
      ensures out' == out + EncodeMachine(Record())
    {
      out' := out + [Str(descr)];
      out' := out' + [U32(Word(flags))];
      out' := out' + [Str(host)];
      out' := out' + [Str(port)];
      out' := out' + [Str(user)];
      out' := out' + [Str(pass)];
    }

    /** Load reads the record from the front of the data source and returns what is
        left; on a stream that does not hold the record it changes nothing. */
    method Load(ds: Stream) returns (rest: Option<Stream>)
      modifies this
      ensures var d := DecodeMachine(ds);
              && rest == (if d.Some? then Some(d.value.rest) else None)
              && Record() == (if d.Some? then d.value.value else old(Record()))
      ensures old(Valid()) ==> Valid()
      ensures tPong == old(tPong) && console == old(console) && messages == old(messages)
    {
      var d := DecodeMachine(ds);
      if d.None? {
        return None;
      }
      var m := d.value.value;
      descr := m.descr;
      flags := m.flags;
      host := m.host;
      port := m.port;
      user := m.user;
      pass := m.pass;
      rest := Some(d.value.rest);
    }
  }

  /** Saving one machine and loading the result into another copies the whole record. */
  method SaveThenLoad(m: Machine, n: Machine, tail: Stream)
    requires m.Valid()
    modifies n
    ensures n.Record() == old(m.Record())
  {
    var ds := m.Save([]);
    var rest := n.Load(ds + tail);
    MachineRoundTrip(old(m.Record()), tail);
  }
}
