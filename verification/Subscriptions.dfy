/** How subscribed sessions learn of changes: the index refresh, the mempool poll and one
    arbitrary session interleave freely, and only the latest change is ever waiting to be seen. */
module Subscriptions {
  import opened Collections
  import opened Ledger
  import opened Wallet
  import opened Histories

  type Status = seq<HistoryEntry>
  type Tip = nat

  /** Chain states and mempool contents in the order the server meets them: the tip of the
      `i`-th chain, a script's history in it, and a status from a history and the `j`-th
      mempool. */
  datatype World = World(
    tip: nat -> Option<Tip>,
    history: (nat, Script) -> History,
    status: (History, nat, Script) -> Status)

  /** The value in the watch channel. */
  datatype Changes = Changes(tip: nat, mempool: nat)

  /** The chain held, the mempool polled, and the watch channel with its version. */
  datatype Server = Server(chain: nat, mempool: nat, changes: Changes, version: nat)

  datatype ScriptState = ScriptState(confirmed: History, status: Status)

  /** What a session is in the middle of. */
  datatype Activity =
    | Idle
    | Subscribing(script: Script, confirmed: History)
    | Waking(tipChanged: bool, todo: set<Script>, at: Option<Script>)

  /** Replies to the two subscriptions, and the two notifications. */
  datatype Message =
    | Replied(script: Script, status: Status) | Notified(script: Script, status: Status)
    | HeaderReply(tip: nat) | NewTip(tip: nat)

  /** `seen` is the version last consumed and `current` the value it had; `checked` is the tip
      the scripts were last checked at; `header` the last tip sent, once subscribed to. */
  datatype Session = Session(seen: nat, current: Changes, checked: nat, header: Option<nat>,
                             scripts: map<Script, ScriptState>, activity: Activity, sent: seq<Message>)

  datatype State = State(server: Server, session: Session)

  datatype Step =
    | Refresh | Publish | Poll | Bump
    | SubscribeRead(script: Script) | SubscribeReply | Unsubscribe(script: Script) | SubscribeHeaders
    | WakeBegin | WakePick(script: Script) | WakeFail(script: Script) | WakeStatus | WakeEnd

  // ------------------------------------------------------------------------------------- the steps

  predicate Enabled(w: World, st: State, step: Step) {
    var a := st.session.activity;
    match step
    case Refresh => true
    case Publish => true
    case Poll => st.server.mempool == st.server.changes.mempool
    case Bump => st.server.mempool != st.server.changes.mempool
    case SubscribeRead(_) => a.Idle?
    case SubscribeReply => a.Subscribing?
    case Unsubscribe(_) => a.Idle?
    case SubscribeHeaders => a.Idle? && w.tip(st.server.chain).Some?
    case WakeBegin => a.Idle? && st.session.seen != st.server.version
    case WakePick(s) => a.Waking? && a.at.None? && s in a.todo && s in st.session.scripts
    case WakeFail(s) => a.Waking? && a.at.None? && s in a.todo && a.tipChanged
    case WakeStatus => a.Waking? && a.at.Some? && a.at.value in st.session.scripts
    case WakeEnd => a.Waking? && a.at.None? && a.todo == {}
  }

  /** The server's own steps. A tip equal to the published one is not published again. */
  function NextServer(w: World, s: Server, step: Step): Server {
    match step
    case Refresh => s.(chain := s.chain + 1)
    case Publish =>
      if w.tip(s.changes.tip) == w.tip(s.chain) then s
      else s.(changes := s.changes.(tip := s.chain), version := s.version + 1)
    case Poll => s.(mempool := s.mempool + 1)
    case Bump => s.(changes := s.changes.(mempool := s.mempool), version := s.version + 1)
    case _ => s
  }

  /** A new tip goes out to a session that subscribed to headers, if it differs from the last. */
  function HeaderNotice(w: World, n: Session): Session {
    if n.header.Some? && w.tip(n.current.tip) != w.tip(n.header.value) && w.tip(n.current.tip).Some? then
      n.(header := Some(n.current.tip), sent := n.sent + [NewTip(n.current.tip)])
    else n
  }

  /** The session's steps, against the server as it is at that instant. */
  function NextSession(w: World, s: Server, n: Session, step: Step): Session
    requires Enabled(w, State(s, n), step)
  {
    match step
    case SubscribeRead(script) => n.(activity := Subscribing(script, w.history(s.chain, script)))
    case SubscribeReply =>
      var script, confirmed := n.activity.script, n.activity.confirmed;
      var status := w.status(confirmed, s.mempool, script);
      n.(scripts := n.scripts[script := ScriptState(confirmed, status)], activity := Idle, sent := n.sent + [Replied(script, status)])
    case Unsubscribe(script) => n.(scripts := n.scripts - {script})
    case SubscribeHeaders => n.(header := Some(s.chain), sent := n.sent + [HeaderReply(s.chain)])
    case WakeBegin =>
      var m := HeaderNotice(w, n.(seen := s.version, current := s.changes));
      m.(activity := Waking(w.tip(s.changes.tip) != w.tip(n.checked), n.scripts.Keys, None))
    case WakePick(script) =>
      var a := n.activity.(todo := n.activity.todo - {script}, at := Some(script));
      if n.activity.tipChanged then
        n.(scripts := n.scripts[script := n.scripts[script].(confirmed := w.history(s.chain, script))], activity := a)
      else n.(activity := a)
    case WakeFail(script) => n.(activity := n.activity.(todo := n.activity.todo - {script}))
    case WakeStatus =>
      var script := n.activity.at.value;
      var status := w.status(n.scripts[script].confirmed, s.mempool, script);
      var m := n.(activity := n.activity.(at := None));
      if status == n.scripts[script].status then m
      else m.(scripts := n.scripts[script := n.scripts[script].(status := status)], sent := n.sent + [Notified(script, status)])
    case WakeEnd => n.(checked := n.current.tip, activity := Idle)
    case _ => n
  }

  function Next(w: World, st: State, step: Step): State
    requires Enabled(w, st, step)
  {
    State(NextServer(w, st.server, step), NextSession(w, st.server, st.session, step))
  }

  /** A server that has published what it has, or nothing yet, and a session that just began. */
  predicate Starts(st: State) {
    var s, n := st.server, st.session;
    && s.changes.tip <= s.chain && s.changes.mempool <= s.mempool
    && n == Session(s.version, s.changes, s.changes.tip, None, map[], Idle, [])
  }

  ghost predicate IsRun(w: World, states: seq<State>, steps: seq<Step>) {
    && |states| == |steps| + 1 && Starts(states[0])
    && forall i :: 0 <= i < |steps| ==> Enabled(w, states[i], steps[i]) && states[i+1] == Next(w, states[i], steps[i])
  }

  // ---------------------------------------------------------------------------------- what was read

  /** A record of a run: the chain each script was last read at, the mempool its status was last
      worked out with, the scripts the latest wake could not refresh, and those not read since a
      refresh of theirs failed. */
  datatype Trace = Trace(read: map<Script, nat>, worked: map<Script, nat>, skipped: set<Script>, failed: set<Script>, reading: nat)

  const NOTHING_READ := Trace(map[], map[], {}, {}, 0)

  ghost function NextTrace(tr: Trace, st: State, step: Step): Trace {
    var s, a := st.server, st.session.activity;
    match step
    case SubscribeRead(_) => tr.(reading := s.chain)
    case SubscribeReply =>
      if a.Subscribing? then
        Trace(tr.read[a.script := tr.reading], tr.worked[a.script := s.mempool], tr.skipped - {a.script}, tr.failed - {a.script}, tr.reading)
      else tr
    case WakeBegin => tr.(skipped := {})
    case WakePick(script) =>
      if a.Waking? && a.tipChanged then
        tr.(read := tr.read[script := s.chain], skipped := tr.skipped - {script}, failed := tr.failed - {script})
      else tr
    case WakeFail(script) => tr.(skipped := tr.skipped + {script}, failed := tr.failed + {script})
    case WakeStatus => if a.Waking? && a.at.Some? then tr.(worked := tr.worked[a.at.value := s.mempool]) else tr
    case _ => tr
  }

  /** The record of the first `k` steps. */
  ghost function TraceAt(states: seq<State>, steps: seq<Step>, k: nat): Trace
    requires |states| == |steps| + 1 && k <= |steps|
  {
    if k == 0 then NOTHING_READ else NextTrace(TraceAt(states, steps, k - 1), states[k-1], steps[k-1])
  }

  // --------------------------------------------------------------------------------- the invariant

  ghost predicate ServerOk(s: Server) {
    s.changes.tip <= s.chain && s.changes.mempool <= s.mempool
  }

  /** What the session consumed is no newer than what is published, and is what is published
      once nothing is waiting. */
  ghost predicate SeenOk(s: Server, n: Session) {
    && n.seen <= s.version && (n.seen == s.version ==> n.current == s.changes)
    && n.current.tip <= s.changes.tip && n.current.mempool <= s.changes.mempool
    && n.checked <= n.current.tip && (!n.activity.Waking? ==> n.checked == n.current.tip)
  }

  /** Read no earlier than some chain that had this tip value. */
  ghost predicate ReadSince(w: World, read: nat, tip: nat) {
    exists c :: 0 <= c <= read && w.tip(c) == w.tip(tip)
  }

  /** The last header a session was sent, in a reply or a notification. */
  function LastHeader(sent: seq<Message>): (r: Option<Message>)
    ensures r.Some? ==> r.value.HeaderReply? || r.value.NewTip?
  {
    if |sent| == 0 then None
    else
      var m := sent[|sent|-1];
      if m.HeaderReply? || m.NewTip? then Some(m) else LastHeader(sent[..|sent|-1])
  }

  /** The session remembers the last header it sent. One that went out in a notification has the tip
      last consumed, unless there was none. */
  ghost predicate HeaderOk(w: World, s: Server, n: Session) {
    var last := LastHeader(n.sent);
    && n.header == (if last.Some? then Some(last.value.tip) else None)
    && (n.header.Some? ==> n.header.value <= s.chain && (w.tip(n.current.tip).Some? ==> ReadSince(w, n.header.value, n.current.tip)))
    && (last.Some? && last.value.NewTip? && w.tip(n.current.tip).Some? ==> w.tip(last.value.tip) == w.tip(n.current.tip))
  }

  /** The session holds the history last read and the status last worked out from it; outside a
      wake, with the latest mempool announced unless the script was skipped, and read since the
      checked tip unless a refresh failed. */
  ghost predicate ScriptOk(w: World, s: Server, n: Session, tr: Trace, script: Script)
    requires script in n.scripts
  {
    var x := n.scripts[script];
    var waiting := n.activity.Waking? && script in n.activity.todo;
    var midway := n.activity.Waking? && n.activity.at == Some(script);
    && script in tr.read && script in tr.worked
    && tr.read[script] <= s.chain && tr.worked[script] <= s.mempool
    && x.confirmed == w.history(tr.read[script], script)
    && (!midway ==> x.status == w.status(x.confirmed, tr.worked[script], script))
    && (!waiting && !midway && script !in tr.skipped ==> n.current.mempool <= tr.worked[script])
    && (script !in tr.failed ==> ReadSince(w, tr.read[script], if waiting then n.checked else n.current.tip))
  }

  ghost predicate ScriptsOk(w: World, s: Server, n: Session, tr: Trace) {
    && tr.skipped <= tr.failed
    && forall script :: script in n.scripts ==> ScriptOk(w, s, n, tr, script)
  }

  ghost predicate ActivityOk(w: World, s: Server, n: Session, tr: Trace) {
    && (n.activity.Waking? ==> n.activity.tipChanged == (w.tip(n.current.tip) != w.tip(n.checked)))
    && (n.activity.Waking? ==> n.activity.todo <= n.scripts.Keys && n.activity.todo !! tr.skipped)
    && (n.activity.Waking? && n.activity.at.Some? ==> n.activity.at.value in n.scripts && n.activity.at.value !in n.activity.todo)
    && (n.activity.Subscribing? ==> n.current.tip <= tr.reading <= s.chain && n.activity.confirmed == w.history(tr.reading, n.activity.script))
  }

  /** The status a script was last sent, in a reply or a notification. */
  function LastSent(sent: seq<Message>, script: Script): Option<Status> {
    if |sent| == 0 then None
    else
      var m := sent[|sent|-1];
      if (m.Replied? || m.Notified?) && m.script == script then Some(m.status) else LastSent(sent[..|sent|-1], script)
  }

  /** The session remembers what it sent, and no notification repeats what was sent before. */
  ghost predicate SentOk(n: Session) {
    && (forall script :: script in n.scripts ==> LastSent(n.sent, script) == Some(n.scripts[script].status))
    && (forall k :: 0 <= k < |n.sent| && n.sent[k].Notified? ==> NoticeDiffers(n.sent, k))
  }

  ghost predicate NoticeDiffers(sent: seq<Message>, k: nat)
    requires k < |sent| && sent[k].Notified?
  {
    LastSent(sent[..k], sent[k].script).Some? && LastSent(sent[..k], sent[k].script) != Some(sent[k].status)
  }

  ghost predicate Inv(w: World, st: State, tr: Trace) {
    && ServerOk(st.server) && SeenOk(st.server, st.session) && HeaderOk(w, st.server, st.session)
    && ScriptsOk(w, st.server, st.session, tr) && ActivityOk(w, st.server, st.session, tr) && SentOk(st.session)
  }

  // ----------------------------------------------------------------------------------- preservation

  /** A server that moved on, without going back. */
  ghost predicate Later(a: Server, b: Server) {
    a.chain <= b.chain && a.mempool <= b.mempool && a.version <= b.version
  }

  predicate ServerStep(step: Step) { step.Refresh? || step.Publish? || step.Poll? || step.Bump? }

  /** The server's steps keep everything: they only move on. */
  lemma ServerKeeps(w: World, st: State, tr: Trace, step: Step)
    requires Inv(w, st, tr) && ServerStep(step) && Enabled(w, st, step)
    ensures Inv(w, Next(w, st, step), tr) && NextTrace(tr, st, step) == tr
  {
    hide SentOk, ReadSince, LastHeader;
  }

  lemma SentAgain(sent: seq<Message>, m: Message)
    ensures LastHeader(sent + [m]) == if m.HeaderReply? || m.NewTip? then Some(m) else LastHeader(sent)
    ensures forall s :: LastSent(sent + [m], s) == if (m.Replied? || m.Notified?) && m.script == s then Some(m.status) else LastSent(sent, s)
    ensures (forall k :: 0 <= k < |sent| && sent[k].Notified? ==> NoticeDiffers(sent, k)) &&
            (m.Notified? ==> LastSent(sent, m.script).Some? && LastSent(sent, m.script) != Some(m.status)) ==>
              forall k :: 0 <= k < |sent + [m]| && (sent + [m])[k].Notified? ==> NoticeDiffers(sent + [m], k)
  {
    Snoc(sent, m);
  }

  lemma ReadNow(w: World, read: nat, tip: nat)
    requires tip <= read
    ensures ReadSince(w, read, tip)
  {
    assert 0 <= tip <= read && w.tip(tip) == w.tip(tip);
  }

  lemma ReadSame(w: World, read: nat, a: nat, b: nat)
    requires ReadSince(w, read, a) && w.tip(a) == w.tip(b)
    ensures ReadSince(w, read, b)
  {}

  lemma SubscribeKeeps(w: World, st: State, tr: Trace, step: Step)
    requires Inv(w, st, tr) && Enabled(w, st, step)
    requires step.SubscribeRead? || step.SubscribeReply? || step.Unsubscribe? || step.SubscribeHeaders?
    ensures Inv(w, Next(w, st, step), NextTrace(tr, st, step))
  {
    hide LastSent, LastHeader, ReadSince, NoticeDiffers;
    var s, n := st.server, st.session;
    if step.SubscribeReply? {
      ReadNow(w, tr.reading, n.current.tip);
      SentAgain(n.sent, Replied(n.activity.script, w.status(n.activity.confirmed, s.mempool, n.activity.script)));
    } else if step.SubscribeHeaders? {
      ReadNow(w, s.chain, n.current.tip);
      SentAgain(n.sent, HeaderReply(s.chain));
    }
  }

  lemma BeginKeeps(w: World, st: State, tr: Trace)
    requires Inv(w, st, tr) && Enabled(w, st, WakeBegin)
    ensures Inv(w, Next(w, st, WakeBegin), NextTrace(tr, st, WakeBegin))
  {
    hide LastSent, LastHeader, ReadSince, NoticeDiffers;
    var s, n := st.server, st.session;
    HeaderCaughtUp(w, s, n);
    SentAgain(n.sent, NewTip(s.changes.tip));
  }

  lemma HeaderCaughtUp(w: World, s: Server, n: Session)
    ensures ReadSince(w, s.changes.tip, s.changes.tip)
    ensures n.header.Some? && w.tip(s.changes.tip) == w.tip(n.header.value) ==> ReadSince(w, n.header.value, s.changes.tip)
  {
    ReadNow(w, s.changes.tip, s.changes.tip);
    if n.header.Some? && w.tip(s.changes.tip) == w.tip(n.header.value) {
      ReadNow(w, n.header.value, n.header.value);
      ReadSame(w, n.header.value, n.header.value, s.changes.tip);
    }
  }

  lemma PickKeeps(w: World, st: State, tr: Trace, script: Script)
    requires Inv(w, st, tr) && Enabled(w, st, WakePick(script))
    ensures Inv(w, Next(w, st, WakePick(script)), NextTrace(tr, st, WakePick(script)))
  {
    hide LastSent, LastHeader, ReadSince, NoticeDiffers;
    var s, n := st.server, st.session;
    ReadNow(w, s.chain, n.current.tip);
    assert ScriptOk(w, s, n, tr, script);
    if !n.activity.tipChanged && script !in tr.failed { ReadSame(w, tr.read[script], n.checked, n.current.tip); }
  }

  lemma StatusKeeps(w: World, st: State, tr: Trace)
    requires Inv(w, st, tr) && Enabled(w, st, WakeStatus)
    ensures Inv(w, Next(w, st, WakeStatus), NextTrace(tr, st, WakeStatus))
  {
    hide LastSent, LastHeader, ReadSince, NoticeDiffers;
    var s, n := st.server, st.session;
    var script := n.activity.at.value;
    SentAgain(n.sent, Notified(script, w.status(n.scripts[script].confirmed, s.mempool, script)));
  }

  lemma WakeKeeps(w: World, st: State, tr: Trace, step: Step)
    requires Inv(w, st, tr) && Enabled(w, st, step)
    requires step.WakeFail? || step.WakeEnd?
    ensures Inv(w, Next(w, st, step), NextTrace(tr, st, step))
  {
    hide LastSent, LastHeader, ReadSince, NoticeDiffers, SentOk, HeaderOk;
    var next := Next(w, st, step);
    assert next.session.scripts == st.session.scripts && next.session.sent == st.session.sent && next.session.header == st.session.header;
    SameHeader(w, st.server, st.session, next.session);
    SameSent(st.session, next.session);
  }

  lemma SameHeader(w: World, s: Server, a: Session, b: Session)
    requires HeaderOk(w, s, a) && a.header == b.header && a.current == b.current && a.sent == b.sent
    ensures HeaderOk(w, s, b)
  {}

  lemma SameSent(a: Session, b: Session)
    requires SentOk(a) && a.scripts == b.scripts && a.sent == b.sent
    ensures SentOk(b)
  {}

  /** Every step keeps the invariant, failed refreshes included and whatever tips come back. */
  lemma StepKeeps(w: World, st: State, tr: Trace, step: Step)
    requires Inv(w, st, tr) && Enabled(w, st, step)
    ensures Inv(w, Next(w, st, step), NextTrace(tr, st, step))
  {
    hide Inv, Enabled, Next, NextTrace;
    if ServerStep(step) {
      ServerKeeps(w, st, tr, step);
    } else if step.WakeBegin? {
      BeginKeeps(w, st, tr);
    } else if step.WakePick? {
      PickKeeps(w, st, tr, step.script);
    } else if step.WakeStatus? {
      StatusKeeps(w, st, tr);
    } else if step.WakeFail? || step.WakeEnd? {
      WakeKeeps(w, st, tr, step);
    } else {
      SubscribeKeeps(w, st, tr, step);
    }
  }

  lemma {:induction false} RunKeeps(w: World, states: seq<State>, steps: seq<Step>, k: nat)
    requires IsRun(w, states, steps) && k <= |steps|
    ensures Inv(w, states[k], TraceAt(states, steps, k))
    decreases k
  {
    if k == 0 {
      hide NextTrace;
    } else {
      hide Inv, Enabled, Next, NextTrace;
      RunKeeps(w, states, steps, k - 1);
      StepKeeps(w, states[k-1], TraceAt(states, steps, k - 1), steps[k-1]);
    }
  }

  // --------------------------------------------------------------------------------------- theorems

  /** Nothing is waiting: the tip is published, the poll announced, and the session has consumed
      the latest change. */
  predicate Quiet(w: World, st: State) {
    && st.session.activity.Idle? && st.session.seen == st.server.version
    && w.tip(st.server.changes.tip) == w.tip(st.server.chain) && st.server.changes.mempool == st.server.mempool
  }

  /** The session knows the script's history, and last sent its status, as they are now. */
  ghost predicate UpToDate(w: World, st: State, script: Script) {
    var now := w.history(st.server.chain, script);
    && script in st.session.scripts && st.session.scripts[script].confirmed == now
    && LastSent(st.session.sent, script) == Some(w.status(now, st.server.mempool, script))
  }

  /** What a session holds when nothing is waiting, in every run: for each subscribed script the
      history of the chain it was last read at, and it last sent the status that history has with
      the current mempool, or, when the latest wake skipped the script, with an earlier one. */
  lemma WhatIsHeld(w: World, states: seq<State>, steps: seq<Step>, k: nat, script: Script)
    requires IsRun(w, states, steps) && k <= |steps| && Quiet(w, states[k]) && script in states[k].session.scripts
    ensures var st, tr := states[k], TraceAt(states, steps, k);
            && script in tr.read && tr.read[script] <= st.server.chain
            && script in tr.worked && tr.worked[script] <= st.server.mempool
            && (script !in tr.skipped ==> tr.worked[script] == st.server.mempool)
            && st.session.scripts[script].confirmed == w.history(tr.read[script], script)
            && LastSent(st.session.sent, script) == Some(w.status(w.history(tr.read[script], script), tr.worked[script], script))
  {
    RunKeeps(w, states, steps, k);
    hide IsRun, LastSent, NoticeDiffers, TraceAt, ReadSince;
    assert ScriptOk(w, states[k].server, states[k].session, TraceAt(states, steps, k), script);
  }

  /** The chain a script was last read at and the current one have the same tip, or different
      histories of the script. With block hashes naming chains, equal tips give equal histories,
      so this fails only when the chains differ and the script does not care. */
  ghost predicate TipsTell(w: World, script: Script, read: nat, now: nat) {
    w.tip(read) == w.tip(now) <==> w.history(read, script) == w.history(now, script)
  }

  /** Exactly when nothing is lost: in every run, whenever nothing is waiting, a script the latest
      wake did not skip is up to date if and only if the tip it was last read under is the
      current one. Where tips do not tell the histories apart, histories decide; and a skipped
      script also needs its status to be the same with both mempools. */
  lemma UpToDateExactly(w: World, states: seq<State>, steps: seq<Step>, k: nat, script: Script)
    requires IsRun(w, states, steps) && k <= |steps| && Quiet(w, states[k]) && script in states[k].session.scripts
    ensures var st, tr := states[k], TraceAt(states, steps, k);
            && script in tr.read && script in tr.worked
            && var read, now := tr.read[script], st.server.chain;
            && (script !in tr.skipped && TipsTell(w, script, read, now) ==> (UpToDate(w, st, script) <==> w.tip(read) == w.tip(now)))
            && (UpToDate(w, st, script) <==>
                  w.history(read, script) == w.history(now, script) &&
                  w.status(w.history(now, script), tr.worked[script], script) == w.status(w.history(now, script), st.server.mempool, script))
            && (script !in tr.skipped ==> tr.worked[script] == st.server.mempool)
  {
    WhatIsHeld(w, states, steps, k, script);
    hide IsRun, LastSent, TraceAt;
  }

  /** The current tip is one the server never held before. */
  ghost predicate TipIsNew(w: World, chain: nat) {
    forall i :: 0 <= i < chain ==> w.tip(i) != w.tip(chain)
  }

  /** Coalesced wake-ups lose nothing: in every run, whenever nothing is waiting and the tip is
      new, each script but those whose refresh failed was read at the current chain, the last
      status sent for it is the current one, and the last header sent to a session that asked for
      headers is the tip. Earlier tips may have come back, and other scripts may have failed. */
  lemma NothingIsLost(w: World, states: seq<State>, steps: seq<Step>, k: nat)
    requires IsRun(w, states, steps) && k <= |steps| && Quiet(w, states[k]) && TipIsNew(w, states[k].server.chain)
    ensures var st, tr := states[k], TraceAt(states, steps, k);
            && (forall script :: script in st.session.scripts && script !in tr.failed ==>
                  script in tr.read && tr.read[script] == st.server.chain && UpToDate(w, st, script))
            && var last := LastHeader(st.session.sent);
            && (HeadersAsked(steps, k) <==> last.Some?)
            && (last.Some? && w.tip(st.server.chain).Some? ==> last.value.tip == st.server.chain)
  {
    RunKeeps(w, states, steps, k);
    HeadersAskedExactly(w, states, steps, k);
    hide LastHeader, HeadersAsked;
    hide IsRun, LastSent, TraceAt, NoticeDiffers, UpToDate;
    var st, tr := states[k], TraceAt(states, steps, k);
    forall script | script in st.session.scripts && script !in tr.failed
      ensures script in tr.read && tr.read[script] == st.server.chain && UpToDate(w, st, script)
    {
      assert ScriptOk(w, st.server, st.session, tr, script);
      UpToDateExactly(w, states, steps, k, script);
    }
  }

  /** The session subscribed to headers in one of the first `k` steps. */
  ghost predicate HeadersAsked(steps: seq<Step>, k: nat)
    requires k <= |steps|
  {
    exists i :: 0 <= i < k && steps[i].SubscribeHeaders?
  }

  /** A session that asked for headers was sent one, and no other was. */
  lemma {:induction false} HeadersAskedExactly(w: World, states: seq<State>, steps: seq<Step>, k: nat)
    requires IsRun(w, states, steps) && k <= |steps|
    ensures HeadersAsked(steps, k) <==> LastHeader(states[k].session.sent).Some?
    decreases k
  {
    if k > 0 {
      HeadersAskedExactly(w, states, steps, k - 1);
      RunKeeps(w, states, steps, k - 1);
      HeadersStep(w, states[k-1], TraceAt(states, steps, k - 1), steps[k-1]);
      hide Inv, Enabled, Next, LastHeader;
      assert HeadersAsked(steps, k) <==> HeadersAsked(steps, k - 1) || steps[k-1].SubscribeHeaders?;
    }
  }

  lemma HeadersStep(w: World, st: State, tr: Trace, step: Step)
    requires Inv(w, st, tr) && Enabled(w, st, step)
    ensures LastHeader(Next(w, st, step).session.sent).Some? <==> LastHeader(st.session.sent).Some? || step.SubscribeHeaders?
  {
    var n := st.session;
    hide LastHeader, LastSent, NoticeDiffers, ServerOk, SeenOk, ScriptsOk, ActivityOk, SentOk, ReadSince;
    if |Next(w, st, step).session.sent| > |n.sent| {
      SentAgain(n.sent, Next(w, st, step).session.sent[|n.sent|]);
    }
  }

  /** When a session consumes a change, a header goes out exactly when it asked for headers, there is
      a tip, and the tip differs from that of the last header it was sent. */
  lemma HeaderIffDiffers(w: World, states: seq<State>, steps: seq<Step>, k: nat)
    requires IsRun(w, states, steps) && k < |steps| && steps[k].WakeBegin?
    ensures var sent, tip, last := states[k].session.sent, states[k].server.changes.tip, LastHeader(states[k].session.sent);
            states[k+1].session.sent ==
            sent + if HeadersAsked(steps, k) && last.Some? && w.tip(tip).Some? && w.tip(last.value.tip) != w.tip(tip) then [NewTip(tip)] else []
  {
    RunKeeps(w, states, steps, k);
    HeadersAskedExactly(w, states, steps, k);
    AppendNil(states[k].session.sent);
    hide LastSent, LastHeader, ServerOk, SeenOk, SentOk, ScriptsOk, TraceAt, NextTrace, HeadersAsked, ReadSince;
    assert states[k+1] == Next(w, states[k], steps[k]);
  }

  /** Everything else a session is sent: the header it asks for, and one reply per subscription, the
      status of the history read when it began. */
  lemma NothingElseIsSent(w: World, states: seq<State>, steps: seq<Step>, k: nat)
    requires IsRun(w, states, steps) && k < |steps| && !steps[k].WakeBegin? && !steps[k].WakeStatus?
    ensures var sent, after, tr := states[k].session.sent, states[k+1].session.sent, TraceAt(states, steps, k);
            match steps[k]
            case SubscribeHeaders => w.tip(states[k].server.chain).Some? && after == sent + [HeaderReply(states[k].server.chain)]
            case SubscribeReply =>
              && states[k].session.activity.Subscribing?
              && var script := states[k].session.activity.script;
              after == sent + [Replied(script, w.status(w.history(tr.reading, script), states[k].server.mempool, script))]
            case _ => after == sent
  {
    RunKeeps(w, states, steps, k);
    hide LastSent, LastHeader, ServerOk, SeenOk, SentOk, ScriptsOk, HeaderOk, TraceAt, NextTrace;
    assert states[k+1] == Next(w, states[k], steps[k]);
  }

  /** Every tip is published before the index is refreshed again, as the refresh task does when it
      can read the tip. */
  ghost predicate TipsPublished(w: World, states: seq<State>, steps: seq<Step>, k: nat)
    requires |states| == |steps| + 1 && k <= |steps|
  {
    forall i :: 0 <= i < k && steps[i].Refresh? ==> PublishedIsHeld(w, states[i].server)
  }

  ghost predicate PublishedIsHeld(w: World, s: Server) {
    w.tip(s.changes.tip) == w.tip(s.chain)
  }

  /** The last header sent is that of the published tip, or of the one held and not yet published, or
      a change is waiting, or no tip is published. */
  ghost predicate HeaderFresh(w: World, s: Server, n: Session) {
    var last := LastHeader(n.sent);
    last.Some? ==>
      || n.seen < s.version || w.tip(s.changes.tip).None?
      || w.tip(last.value.tip) == w.tip(s.changes.tip) || last.value.tip == s.chain
  }

  lemma FreshStep(w: World, st: State, tr: Trace, step: Step)
    requires Inv(w, st, tr) && Enabled(w, st, step) && HeaderFresh(w, st.server, st.session)
    requires step.Refresh? ==> PublishedIsHeld(w, st.server)
    ensures var next := Next(w, st, step); HeaderFresh(w, next.server, next.session)
  {
    var n, next := st.session, Next(w, st, step);
    hide LastHeader, LastSent, NoticeDiffers, ScriptsOk, ActivityOk, SentOk, ReadSince;
    if |next.session.sent| > |n.sent| {
      SentAgain(n.sent, next.session.sent[|n.sent|]);
    }
  }

  lemma {:induction false} StaysFresh(w: World, states: seq<State>, steps: seq<Step>, k: nat)
    requires IsRun(w, states, steps) && k <= |steps| && TipsPublished(w, states, steps, k)
    ensures HeaderFresh(w, states[k].server, states[k].session)
    decreases k
  {
    hide Inv, Enabled, Next, PublishedIsHeld, TraceAt;
    if k > 0 {
      StaysFresh(w, states, steps, k - 1);
      RunKeeps(w, states, steps, k - 1);
      hide HeaderFresh;
      FreshStep(w, states[k-1], TraceAt(states, steps, k - 1), steps[k-1]);
    }
  }

  /** Headers are never lost where every tip is published: whatever tips come back, whenever nothing is
      waiting the last header sent has the current tip. */
  lemma HeaderIsCurrent(w: World, states: seq<State>, steps: seq<Step>, k: nat)
    requires IsRun(w, states, steps) && k <= |steps| && TipsPublished(w, states, steps, k)
    requires Quiet(w, states[k]) && w.tip(states[k].server.chain).Some? && HeadersAsked(steps, k)
    ensures var last := LastHeader(states[k].session.sent); last.Some? && w.tip(last.value.tip) == w.tip(states[k].server.chain)
  {
    StaysFresh(w, states, steps, k);
    HeadersAskedExactly(w, states, steps, k);
    hide IsRun, LastHeader, TipsPublished, HeadersAsked;
  }

  /** In any run a header sent in a notification is never left wrong, so a last header that is wrong
      was the reply to a subscription. */
  lemma NoticedHeaderIsCurrent(w: World, states: seq<State>, steps: seq<Step>, k: nat)
    requires IsRun(w, states, steps) && k <= |steps| && Quiet(w, states[k]) && w.tip(states[k].server.chain).Some?
    ensures var last := LastHeader(states[k].session.sent);
            last.Some? && w.tip(last.value.tip) != w.tip(states[k].server.chain) ==> last.value.HeaderReply?
  {
    RunKeeps(w, states, steps, k);
    hide IsRun, LastSent, LastHeader, TraceAt, NoticeDiffers, ScriptsOk, ActivityOk, SentOk, ReadSince;
  }

  /** The session is subscribed to the script: it was told a status and has not unsubscribed since. */
  ghost predicate Subscribed(states: seq<State>, steps: seq<Step>, k: nat, script: Script)
    requires |states| == |steps| + 1 && k <= |steps|
  {
    exists i :: 0 <= i < k && SubscribesAt(states[i], steps[i], script) && forall j :: i < j < k ==> steps[j] != Unsubscribe(script)
  }

  ghost predicate SubscribesAt(st: State, step: Step, script: Script) {
    step.SubscribeReply? && st.session.activity.Subscribing? && st.session.activity.script == script
  }

  /** A session holds, and wakes for, exactly the scripts it is subscribed to. */
  lemma {:induction false} SubscribedExactly(w: World, states: seq<State>, steps: seq<Step>, k: nat, script: Script)
    requires IsRun(w, states, steps) && k <= |steps|
    ensures script in states[k].session.scripts <==> Subscribed(states, steps, k, script)
    decreases k
  {
    if k > 0 {
      SubscribedExactly(w, states, steps, k - 1, script);
      assert Enabled(w, states[k-1], steps[k-1]) && states[k] == Next(w, states[k-1], steps[k-1]);
      ScriptsStep(w, states[k-1], steps[k-1], script);
      SubscribedStep(states, steps, k, script);
    }
  }

  lemma ScriptsStep(w: World, st: State, step: Step, script: Script)
    requires Enabled(w, st, step)
    ensures script in Next(w, st, step).session.scripts <==>
            SubscribesAt(st, step, script) || (script in st.session.scripts && step != Unsubscribe(script))
  {}

  lemma SubscribedStep(states: seq<State>, steps: seq<Step>, k: nat, script: Script)
    requires |states| == |steps| + 1 && 0 < k <= |steps|
    ensures Subscribed(states, steps, k, script) <==>
            SubscribesAt(states[k-1], steps[k-1], script) || (Subscribed(states, steps, k - 1, script) && steps[k-1] != Unsubscribe(script))
  {
    hide SubscribesAt;
    if SubscribesAt(states[k-1], steps[k-1], script) {
      assert Subscribed(states, steps, k, script);
    } else if Subscribed(states, steps, k - 1, script) && steps[k-1] != Unsubscribe(script) {
      var i :| 0 <= i < k - 1 && SubscribesAt(states[i], steps[i], script) && forall j :: i < j < k - 1 ==> steps[j] != Unsubscribe(script);
      assert forall j :: i < j < k ==> steps[j] != Unsubscribe(script);
    }
  }

  /** No script is marked as failed in a run in which no refresh failed. */
  lemma {:induction false} NoneFailed(w: World, states: seq<State>, steps: seq<Step>, k: nat)
    requires IsRun(w, states, steps) && k <= |steps| && forall i :: 0 <= i < k ==> !steps[i].WakeFail?
    ensures TraceAt(states, steps, k).failed == {} && TraceAt(states, steps, k).skipped == {}
    decreases k
  {
    hide IsRun;
    if k > 0 { NoneFailed(w, states, steps, k - 1); }
  }

  /** In a run in which no refresh failed, every script is up to date whenever nothing is waiting
      and the tip is new. */
  lemma SmoothRunsLoseNothing(w: World, states: seq<State>, steps: seq<Step>, k: nat)
    requires IsRun(w, states, steps) && k <= |steps| && forall i :: 0 <= i < k ==> !steps[i].WakeFail?
    requires Quiet(w, states[k]) && TipIsNew(w, states[k].server.chain)
    ensures forall script :: script in states[k].session.scripts ==> UpToDate(w, states[k], script)
  {
    NoneFailed(w, states, steps, k);
    NothingIsLost(w, states, steps, k);
    hide IsRun, TraceAt, UpToDate, Quiet, TipIsNew;
  }

  /** Step `i` reads the script's history again. */
  ghost predicate ReadsAgain(st: State, step: Step, script: Script) {
    || (step == WakePick(script) && st.session.activity.Waking? && st.session.activity.tipChanged)
    || (step == SubscribeReply && st.session.activity.Subscribing? && st.session.activity.script == script)
  }

  /** A failed refresh is not made up for until a wake with a changed tip, or a new subscription,
      reads the script again: until then the session keeps the history it had. */
  lemma {:induction false} FailedUntilReadAgain(w: World, states: seq<State>, steps: seq<Step>, i: nat, k: nat, script: Script)
    requires IsRun(w, states, steps) && i <= k <= |steps|
    requires script in TraceAt(states, steps, i).failed && script in TraceAt(states, steps, i).read
    requires forall j :: i <= j < k ==> !ReadsAgain(states[j], steps[j], script)
    ensures script in TraceAt(states, steps, k).failed && script in TraceAt(states, steps, k).read
    ensures TraceAt(states, steps, k).read[script] == TraceAt(states, steps, i).read[script]
    decreases k
  {
    hide Enabled, Next;
    if i < k {
      FailedUntilReadAgain(w, states, steps, i, k - 1, script);
      assert !ReadsAgain(states[k-1], steps[k-1], script);
    }
  }

  /** Whenever a subscribed script's status is worked out, a notification goes out exactly when
      it differs from the last status sent for the script. */
  lemma NoticeIffDiffers(w: World, states: seq<State>, steps: seq<Step>, k: nat)
    requires IsRun(w, states, steps) && k < |steps| && steps[k].WakeStatus?
    ensures var n, script := states[k].session, states[k].session.activity.at.value;
            && script in n.scripts
            && var status := w.status(n.scripts[script].confirmed, states[k].server.mempool, script);
            states[k+1].session.sent == n.sent + if LastSent(n.sent, script) == Some(status) then [] else [Notified(script, status)]
  {
    RunKeeps(w, states, steps, k);
    AppendNil(states[k].session.sent);
    hide LastSent, ServerOk, SeenOk, HeaderOk, ScriptsOk, TraceAt, NextTrace;
    assert states[k+1] == Next(w, states[k], steps[k]);
  }

  /** A session in the middle of something can always go on. */
  lemma NeverStuck(w: World, st: State, tr: Trace) returns (step: Step)
    requires Inv(w, st, tr) && !st.session.activity.Idle?
    ensures Enabled(w, st, step) && !ServerStep(step) && !step.WakeFail?
  {
    var a := st.session.activity;
    if a.Subscribing? {
      step := SubscribeReply;
    } else if a.at.Some? {
      step := WakeStatus;
    } else if a.todo == {} {
      step := WakeEnd;
    } else {
      var s :| s in a.todo;
      step := WakePick(s);
    }
  }

  // ---------------------------------------------------------------------------- what can go wrong

  const START := State(Server(0, 0, Changes(0, 0), 0), Session(0, Changes(0, 0), 0, None, map[], Idle, []))

  /** Some run ends in this state; with `smooth`, one in which no refresh fails. */
  ghost predicate Reachable(w: World, st: State, smooth: bool) {
    exists states, steps :: IsRun(w, states, steps) && states[|steps|] == st && (smooth ==> NothingFails(steps))
  }

  ghost predicate NothingFails(steps: seq<Step>) {
    forall i :: 0 <= i < |steps| ==> !steps[i].WakeFail?
  }

  lemma StartIsReachable(w: World, smooth: bool)
    ensures Reachable(w, START, smooth)
  {
    var states: seq<State>, steps: seq<Step> := [START], [];
    assert IsRun(w, states, steps) && states[|steps|] == START && NothingFails(steps);
  }

  lemma OneStep(w: World, st: State, step: Step, smooth: bool)
    requires Reachable(w, st, smooth) && Enabled(w, st, step) && (smooth ==> !step.WakeFail?)
    ensures Reachable(w, Next(w, st, step), smooth)
  {
    hide Enabled, Next;
    var states, steps :| IsRun(w, states, steps) && states[|steps|] == st && (smooth ==> NothingFails(steps));
    var more, did := states + [Next(w, st, step)], steps + [step];
    forall i | 0 <= i < |did| ensures Enabled(w, more[i], did[i]) && more[i+1] == Next(w, more[i], did[i]) {
      if i < |steps| { assert Enabled(w, states[i], steps[i]); }
    }
    assert IsRun(w, more, did) && more[|did|] == Next(w, st, step) && (smooth ==> NothingFails(did));
  }

  /** Subscribing at an instant of the server. */
  lemma Subscribes(w: World, st: State, script: Script, smooth: bool) returns (next: State)
    requires Reachable(w, st, smooth) && st.session.activity.Idle?
    ensures Reachable(w, next, smooth)
    ensures var x := ScriptState(w.history(st.server.chain, script), w.status(w.history(st.server.chain, script), st.server.mempool, script));
            next == st.(session := st.session.(scripts := st.session.scripts[script := x], sent := st.session.sent + [Replied(script, x.status)]))
  {
    hide Reachable;
    OneStep(w, st, SubscribeRead(script), smooth);
    var reading := Next(w, st, SubscribeRead(script));
    OneStep(w, reading, SubscribeReply, smooth);
    next := Next(w, reading, SubscribeReply);
  }

  /** The index moves on to another tip and publishes it. */
  lemma Refreshes(w: World, st: State, smooth: bool) returns (next: State)
    requires Reachable(w, st, smooth) && w.tip(st.server.changes.tip) != w.tip(st.server.chain + 1)
    ensures Reachable(w, next, smooth)
    ensures var s := st.server;
            next == st.(server := s.(chain := s.chain + 1, changes := s.changes.(tip := s.chain + 1), version := s.version + 1))
  {
    hide Reachable;
    OneStep(w, st, Refresh, smooth);
    OneStep(w, Next(w, st, Refresh), Publish, smooth);
    next := Next(w, Next(w, st, Refresh), Publish);
  }

  lemma Begins(w: World, st: State, smooth: bool) returns (next: State)
    requires Reachable(w, st, smooth) && Enabled(w, st, WakeBegin) && st.session.header.None?
    ensures Reachable(w, next, smooth)
    ensures var n, c := st.session, st.server.changes;
            next == st.(session := n.(seen := st.server.version, current := c, activity := Waking(w.tip(c.tip) != w.tip(n.checked), n.scripts.Keys, None)))
  {
    hide Reachable;
    OneStep(w, st, WakeBegin, smooth);
    next := Next(w, st, WakeBegin);
  }

  /** The rest of a wake whose only script is refreshed if the tip changed; its status is sent if
      it differs. */
  lemma Wakes(w: World, st: State, script: Script, smooth: bool) returns (next: State)
    requires Reachable(w, st, smooth) && st.session.scripts.Keys == {script}
    requires st.session.activity.Waking? && st.session.activity == Waking(st.session.activity.tipChanged, {script}, None)
    ensures Reachable(w, next, smooth)
    ensures var s, n := st.server, st.session;
            var confirmed := if n.activity.tipChanged then w.history(s.chain, script) else n.scripts[script].confirmed;
            && next.server == s && next.session.scripts.Keys == {script}
            && next.session.scripts[script] == ScriptState(confirmed, w.status(confirmed, s.mempool, script))
            && next.session.activity == Idle && next.session.seen == n.seen && next.session.current == n.current
            && next.session.checked == n.current.tip && next.session.header == n.header
  {
    hide Reachable;
    OneStep(w, st, WakePick(script), smooth);
    var picked := Next(w, st, WakePick(script));
    OneStep(w, picked, WakeStatus, smooth);
    var told := Next(w, picked, WakeStatus);
    OneStep(w, told, WakeEnd, smooth);
    next := Next(w, told, WakeEnd);
  }

  ghost predicate StatusDiffers(w: World, script: Script, a: nat, b: nat) {
    w.status(w.history(a, script), 0, script) != w.status(w.history(b, script), 0, script)
  }

  /** The script is subscribed to, and the last status sent for it is not the current one. */
  ghost predicate LastSentIsWrong(w: World, st: State, script: Script) {
    && script in st.session.scripts
    && LastSent(st.session.sent, script) != Some(w.status(w.history(st.server.chain, script), st.server.mempool, script))
  }

  lemma SentIsHeld(w: World, st: State, smooth: bool, script: Script)
    requires Reachable(w, st, smooth) && script in st.session.scripts
    ensures LastSent(st.session.sent, script) == Some(st.session.scripts[script].status)
  {
    var states, steps :| IsRun(w, states, steps) && states[|steps|] == st && (smooth ==> NothingFails(steps));
    RunKeeps(w, states, steps, |steps|);
  }

  /** Tips are compared by value and only the latest is seen. With every tip published: a script
      subscribed to while the next tip is not yet published is read under it; the first tip
      comes back before the session wakes; the one wake left finds the tip unchanged, and the
      session keeps the history of the chain that is gone. */
  lemma RecurringTipIsMissed(w: World, script: Script) returns (st: State)
    requires w.tip(0) == w.tip(2) != w.tip(1) && StatusDiffers(w, script, 1, 2)
    ensures Reachable(w, st, true) && Quiet(w, st) && LastSentIsWrong(w, st, script)
    ensures st.server.changes.tip == st.server.chain == 2
  {
    hide Reachable;
    StartIsReachable(w, true);
    OneStep(w, START, Refresh, true);
    st := Subscribes(w, Next(w, START, Refresh), script, true);
    OneStep(w, st, Publish, true);
    st := Refreshes(w, Next(w, st, Publish), true);
    st := Begins(w, st, true);
    st := Wakes(w, st, script, true);
    SentIsHeld(w, st, true, script);
  }

  /** The same for a session that subscribed long before: its wake for one tip reads the chain of
      the next, and then the first of the two comes back. */
  lemma ReadAheadIsMissed(w: World, script: Script) returns (st: State)
    requires w.tip(0) != w.tip(1) && w.tip(1) != w.tip(2) && w.tip(1) == w.tip(3) && StatusDiffers(w, script, 2, 3)
    ensures Reachable(w, st, true) && Quiet(w, st) && LastSentIsWrong(w, st, script)
    ensures st.server.changes.tip == st.server.chain == 3
  {
    hide Reachable;
    StartIsReachable(w, true);
    st := Subscribes(w, START, script, true);
    st := Refreshes(w, st, true);
    st := Begins(w, st, true);
    st := Refreshes(w, st, true);
    st := Wakes(w, st, script, true);
    st := Refreshes(w, st, true);
    st := Begins(w, st, true);
    st := Wakes(w, st, script, true);
    SentIsHeld(w, st, true, script);
  }

  /** The tip is recorded as checked even when refreshing a script failed, so the script keeps
      what it had. */
  lemma FailedRefreshIsForgotten(w: World, script: Script) returns (st: State)
    requires w.tip(0) != w.tip(1) && StatusDiffers(w, script, 0, 1)
    ensures Reachable(w, st, false) && Quiet(w, st) && LastSentIsWrong(w, st, script)
    ensures st.server.changes.tip == st.server.chain == st.session.checked == 1
  {
    hide Reachable;
    StartIsReachable(w, false);
    st := Subscribes(w, START, script, false);
    st := Refreshes(w, st, false);
    st := Begins(w, st, false);
    OneStep(w, st, WakeFail(script), false);
    st := Next(w, st, WakeFail(script));
    OneStep(w, st, WakeEnd, false);
    st := Next(w, st, WakeEnd);
    SentIsHeld(w, st, false, script);
  }

  /** Where a tip is not published they can be: a session that asks for headers is sent the new tip,
      the task cannot read it to publish it, and the first tip comes back; it is found published
      already, and the session is not woken. */
  lemma HeaderAheadIsMissed(w: World) returns (st: State)
    requires w.tip(0) == w.tip(2) != w.tip(1) && w.tip(1).Some? && w.tip(2).Some?
    ensures Reachable(w, st, true) && Quiet(w, st) && LastHeader(st.session.sent).Some?
    ensures w.tip(LastHeader(st.session.sent).value.tip) != w.tip(st.server.chain)
  {
    hide Reachable, LastHeader;
    StartIsReachable(w, true);
    OneStep(w, START, Refresh, true);
    st := Next(w, START, Refresh);
    OneStep(w, st, SubscribeHeaders, true);
    st := Next(w, st, SubscribeHeaders);
    SentAgain([], HeaderReply(1));
    OneStep(w, st, Refresh, true);
    st := Next(w, st, Refresh);
    OneStep(w, st, Publish, true);
    st := Next(w, st, Publish);
  }

  // -------------------------------------------------------------------------- as the code does it

  /** The server and one session, with the session's fields updated in place. The other tasks act
      between the session's own steps, as `others` says, and `fails` says which refreshes fail. */
  class Connection {
    const w: World
    const others: nat -> seq<Step>
    const fails: (nat, Script) -> bool
    var now: nat
    var server: Server
    var seen: nat
    var current: Changes
    var checked: nat
    var header: Option<nat>
    var scripts: map<Script, ScriptState>
    var sent: seq<Message>
    ghost var activity: Activity
    ghost var trace: Trace

    ghost function Value(): State
      reads this
    {
      State(server, Session(seen, current, checked, header, scripts, activity, sent))
    }

    ghost predicate Valid()
      reads this
    {
      Inv(w, Value(), trace)
    }

    constructor (w: World, others: nat -> seq<Step>, fails: (nat, Script) -> bool, server: Server)
      requires ServerOk(server)
      ensures this.w == w && this.others == others && this.fails == fails && Valid() && activity.Idle?
    {
      this.w, this.others, this.fails, this.now, this.server := w, others, fails, 0, server;
      seen, current, checked, header, scripts, sent := server.version, server.changes, server.changes.tip, None, map[], [];
      activity, trace := Idle, NOTHING_READ;
    }

    /** What the refresh and poll tasks do meanwhile. */
    method Meanwhile()
      requires Valid()
      modifies this`now, this`server
      ensures Valid() && Later(old(server), server) && now == old(now) + 1
    {
      hide Inv;
      var steps := others(now);
      now := now + 1;
      for i := 0 to |steps|
        invariant Valid() && Later(old(server), server) && now == old(now) + 1
      {
        if steps[i] == Publish {
          ServerKeeps(w, Value(), trace, Publish);
          PublishTip();
        } else if steps[i].Refresh? || (steps[i].Poll? && server.mempool == server.changes.mempool)
                  || (steps[i].Bump? && server.mempool != server.changes.mempool) {
          ServerKeeps(w, Value(), trace, steps[i]);
          server := NextServer(w, server, steps[i]);
        }
      }
    }

    /** Publishes the tip, unless it is the one published last. */
    method PublishTip()
      modifies this`server
      ensures Value() == Next(w, old(Value()), Publish)
    {
      if w.tip(server.changes.tip) != w.tip(server.chain) {
        server := server.(changes := server.changes.(tip := server.chain), version := server.version + 1);
      }
    }

    /** Subscribes to a script: reads its history, then works out and replies its status. */
    method Subscribe(script: Script)
      requires Valid() && activity.Idle?
      modifies this
      ensures Valid() && activity.Idle? && script in scripts && script in trace.read && script in trace.worked
      ensures scripts == old(scripts)[script := scripts[script]] && sent == old(sent) + [Replied(script, scripts[script].status)]
      ensures trace.read[script] == old(server.chain) && scripts[script].confirmed == w.history(old(server.chain), script)
      ensures old(server.mempool) <= trace.worked[script] <= server.mempool
      ensures scripts[script].status == w.status(scripts[script].confirmed, trace.worked[script], script)
    {
      hide Inv;
      StepKeeps(w, Value(), trace, SubscribeRead(script));
      trace := NextTrace(trace, Value(), SubscribeRead(script));
      var confirmed := w.history(server.chain, script);
      activity := Subscribing(script, confirmed);
      Meanwhile();
      StepKeeps(w, Value(), trace, SubscribeReply);
      trace := NextTrace(trace, Value(), SubscribeReply);
      var status := w.status(confirmed, server.mempool, script);
      scripts := scripts[script := ScriptState(confirmed, status)];
      activity := Idle;
      sent := sent + [Replied(script, status)];
    }

    /** Stops watching a script. */
    method Unsubscribe(script: Script) returns (was: bool)
      requires Valid() && activity.Idle?
      modifies this`scripts, this`trace
      ensures Valid() && activity.Idle?
      ensures scripts == old(scripts) - {script} && (was <==> script in old(scripts))
    {
      hide Inv;
      StepKeeps(w, Value(), trace, Step.Unsubscribe(script));
      trace := NextTrace(trace, Value(), Step.Unsubscribe(script));
      was := script in scripts;
      scripts := scripts - {script};
    }

    /** Subscribes to headers and replies the tip; fails if the chain is empty. */
    method SubscribeHeaders() returns (ok: bool)
      requires Valid() && activity.Idle?
      modifies this`header, this`sent, this`trace
      ensures Valid() && activity.Idle?
      ensures ok <==> w.tip(server.chain).Some?
      ensures ok ==> header == Some(server.chain) && sent == old(sent) + [HeaderReply(server.chain)]
      ensures !ok ==> header == old(header) && sent == old(sent)
    {
      hide Inv;
      if w.tip(server.chain).None? { return false; }
      StepKeeps(w, Value(), trace, Step.SubscribeHeaders);
      trace := NextTrace(trace, Value(), Step.SubscribeHeaders);
      header, sent := Some(server.chain), sent + [HeaderReply(server.chain)];
      ok := true;
    }

    /** Takes the latest change from the channel and sends its header. */
    method BeginWake() returns (tipChanged: bool)
      requires Valid() && activity.Idle? && seen != server.version
      modifies this
      ensures Valid() && activity == Waking(tipChanged, scripts.Keys, None) && trace.skipped == {}
      ensures server == old(server) && seen == server.version && current == server.changes && scripts == old(scripts)
      ensures HeaderGoesOut(w, old(sent), server.changes.tip, sent) && now == old(now)
    {
      hide Inv;
      HeaderIsLast(w, Value(), trace);
      AppendNil(sent);
      StepKeeps(w, Value(), trace, WakeBegin);
      trace := NextTrace(trace, Value(), WakeBegin);
      seen, current := server.version, server.changes;
      if header.Some? && w.tip(current.tip) != w.tip(header.value) && w.tip(current.tip).Some? {
        header, sent := Some(current.tip), sent + [NewTip(current.tip)];
      }
      tipChanged := w.tip(current.tip) != w.tip(checked);
      activity := Waking(tipChanged, scripts.Keys, None);
    }

    /** Passes over a script whose refresh failed. */
    method SkipScript(script: Script, ghost todo: set<Script>)
      requires Valid() && activity == Waking(true, todo, None) && script in todo
      modifies this`activity, this`trace
      ensures Valid() && activity == Waking(true, todo - {script}, None)
      ensures trace.skipped == old(trace.skipped) + {script}
    {
      hide Inv;
      StepKeeps(w, Value(), trace, WakeFail(script));
      trace := NextTrace(trace, Value(), WakeFail(script));
      activity := Waking(true, todo - {script}, None);
    }

    /** Refreshes one script if the tip changed. */
    method RefreshScript(script: Script, tipChanged: bool, ghost todo: set<Script>)
      requires Valid() && activity == Waking(tipChanged, todo, None) && script in todo && script in scripts
      modifies this`scripts, this`activity, this`trace
      ensures Valid() && activity == Waking(tipChanged, todo - {script}, Some(script))
      ensures scripts.Keys == old(scripts.Keys) && trace.skipped == old(trace.skipped)
    {
      hide Inv;
      TodoNotSkipped(w, Value(), trace);
      StepKeeps(w, Value(), trace, WakePick(script));
      trace := NextTrace(trace, Value(), WakePick(script));
      if tipChanged {
        scripts := scripts[script := scripts[script].(confirmed := w.history(server.chain, script))];
      }
      activity := Waking(tipChanged, todo - {script}, Some(script));
    }

    /** Works out one script's status, and sends it if it differs. */
    method SendStatus(script: Script, tipChanged: bool, ghost todo: set<Script>)
      requires Valid() && activity == Waking(tipChanged, todo, Some(script)) && script in scripts
      modifies this`scripts, this`sent, this`activity, this`trace
      ensures Valid() && activity == Waking(tipChanged, todo, None)
      ensures scripts.Keys == old(scripts.Keys) && old(sent) <= sent && trace.skipped == old(trace.skipped)
    {
      hide Inv;
      StepKeeps(w, Value(), trace, WakeStatus);
      trace := NextTrace(trace, Value(), WakeStatus);
      var status := w.status(scripts[script].confirmed, server.mempool, script);
      if status != scripts[script].status {
        sent := sent + [Notified(script, status)];
        scripts := scripts[script := scripts[script].(status := status)];
      }
      activity := Waking(tipChanged, todo, None);
    }

    /** Brings one script up to date while other tasks act, unless its refresh fails. */
    method NotifyScript(script: Script, tipChanged: bool, ghost todo: set<Script>)
      requires Valid() && activity == Waking(tipChanged, todo, None) && script in todo && script in scripts
      modifies this
      ensures Valid() && activity == Waking(tipChanged, todo - {script}, None)
      ensures seen == old(seen) && current == old(current) && scripts.Keys == old(scripts.Keys) && old(sent) <= sent && now == old(now) + 1
      ensures trace.skipped == old(trace.skipped) + if tipChanged && fails(old(now), script) then {script} else {}
    {
      hide Inv, Valid;
      if tipChanged && fails(now, script) {
        SkipScript(script, todo);
        Meanwhile();
      } else {
        RefreshScript(script, tipChanged, todo);
        Meanwhile();
        SendStatus(script, tipChanged, todo - {script});
      }
    }

    /** Consumes the latest change: sends the header and every status that differs, and records
        the tip as checked. Only scripts whose refresh failed are skipped. */
    method Notifications()
      requires Valid() && activity.Idle? && seen != server.version
      modifies this
      ensures Valid() && activity.Idle?
      ensures seen == old(server.version) && current == old(server.changes) && checked == current.tip
      ensures scripts.Keys == old(scripts.Keys)
      ensures exists k :: |old(sent)| <= k <= |sent| && HeaderGoesOut(w, old(sent), old(server.changes.tip), sent[..k])
      ensures forall s :: s in trace.skipped ==> exists t :: old(now) <= t < now && fails(t, s)
    {
      hide Inv;
      var tipChanged := BeginWake();
      ghost var k := |sent|;
      AllOf(sent);
      var todo := scripts.Keys;
      while todo != {}
        invariant Valid() && activity == Waking(tipChanged, todo, None)
        invariant seen == old(server.version) && current == old(server.changes)
        invariant todo <= scripts.Keys == old(scripts.Keys) && old(now) <= now
        invariant |old(sent)| <= k <= |sent| && HeaderGoesOut(w, old(sent), old(server.changes.tip), sent[..k])
        invariant forall s :: s in trace.skipped ==> exists t :: old(now) <= t < now && fails(t, s)
        decreases todo
      {
        Meanwhile();
        var script :| script in todo;
        ghost var was := sent;
        NotifyScript(script, tipChanged, todo);
        assert sent[..k] == was[..k];
        todo := todo - {script};
      }
      StepKeeps(w, Value(), trace, WakeEnd);
      trace := NextTrace(trace, Value(), WakeEnd);
      checked := current.tip;
      activity := Idle;
    }
  }

  /** A header for the tip is sent exactly when the last header sent had another, and there is one. */
  ghost predicate HeaderGoesOut(w: World, before: seq<Message>, tip: nat, after: seq<Message>) {
    var last := LastHeader(before);
    after == before + if last.Some? && w.tip(tip).Some? && w.tip(last.value.tip) != w.tip(tip) then [NewTip(tip)] else []
  }

  lemma HeaderIsLast(w: World, st: State, tr: Trace)
    requires Inv(w, st, tr)
    ensures var last := LastHeader(st.session.sent); st.session.header == if last.Some? then Some(last.value.tip) else None
  {}

  lemma TodoNotSkipped(w: World, st: State, tr: Trace)
    requires Inv(w, st, tr) && st.session.activity.Waking?
    ensures st.session.activity.todo !! tr.skipped
  {}
}
