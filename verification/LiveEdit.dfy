/**
 Live editing: editor panels holding one tab for a file, writers outside the
 editor, and the agent's read and write sessions between them. Sessions are
 separate steps of the agent, and responses are delivered in any order.
 */
module LiveEdit {
  import opened Prelude

  type Content = string
  type Token = string
  type PanelId = nat
  type SessionId = nat

  /** A panel's tab, as the editor keeps it. */
  datatype Tab = Tab(content: Content, savedContent: Content, revision: Option<Token>, dirty: bool)

  // ---- the tab transitions ----

  /** A read finished for an opening tab; `stash` is the unsaved buffer kept by the browser. */
  function Opened(disk: Content, revision: Option<Token>, stash: Option<Content>): Tab {
    var restored := stash.Some? && stash.value != disk;
    Tab(if restored then stash.value else disk, disk, revision, restored)
  }

  function Changed(t: Tab, content: Content): Tab {
    t.(content := content, dirty := content != t.savedContent)
  }

  function Saved(t: Tab, sent: Content, revision: Option<Token>): Tab {
    t.(revision := if revision.Some? then revision else t.revision, savedContent := sent, dirty := t.content != sent)
  }

  function Reloaded(content: Content, revision: Option<Token>): Tab {
    Tab(content, content, revision, false)
  }

  // ---- the agent's sessions ----

  datatype File = File(content: Content, token: Token)

  datatype Purpose = ForOpen | ForReload

  datatype Session =
    | Reading(panel: PanelId, purpose: Purpose)
    | GotBytes(panel: PanelId, purpose: Purpose, bytes: Content)
    | ReadDone(panel: PanelId, purpose: Purpose, bytes: Content, rev: Option<Token>)
    | Writing(panel: PanelId, sent: Content, token: Token, force: bool)
    | Checked(panel: PanelId, sent: Content, token: Token, force: bool)
    | Wrote(panel: PanelId, sent: Content, token: Token, force: bool)
    | WriteDone(panel: PanelId, sent: Content, rev: Option<Token>)
    | Mismatch(panel: PanelId, actual: Token)
    | Failed(panel: PanelId)

  /** The session checks its token before it writes. */
  predicate Guarded(x: Session)
    requires x.Writing? || x.Checked? || x.Wrote?
  {
    x.token != "" && !x.force
  }

  /**
   What may have to hold of a run for saves to be safe: no write between the read
   and the stat of a session, between its check and its write, or between its
   write and its stat; and no token given to two contents.
   */
  datatype Condition = ReadWindow | CheckWindow | StatWindow | DistinctTokens

  const CONDITIONS := {ReadWindow, CheckWindow, StatWindow, DistinctTokens}

  /** The session stands in one of the windows of `k`. */
  predicate InWindow(x: Session, k: set<Condition>) {
    || (x.GotBytes? && ReadWindow in k)
    || (x.Checked? && CheckWindow in k)
    || (x.Wrote? && StatWindow in k)
  }

  /**
   `issued` records which content each revision token was given to, and
   `known` the contents a panel's tab has loaded or written.
   */
  datatype State = State(
    disk: Option<File>,
    tabs: map<PanelId, Tab>,
    sessions: map<SessionId, Session>,
    issued: map<Token, Content>,
    known: map<PanelId, set<Content>>)

  const INIT := State(None, map[], map[], map[], map[])

  datatype Action =
    | Open(p: PanelId, x: SessionId)
    | Change(p: PanelId, content: Content)
    | Close(p: PanelId)
    | Save(p: PanelId, x: SessionId)
    | Reload(p: PanelId, x: SessionId)
    | Overwrite(p: PanelId, x: SessionId)
    | ReadFile(x: SessionId, ok: bool)
    | StatAfterRead(x: SessionId, ok: bool)
    | CheckRevision(x: SessionId, ok: bool)
    | WriteFile(x: SessionId, ok: bool, newToken: Token)
    | StatAfterWrite(x: SessionId, ok: bool)
    | Deliver(x: SessionId, stash: Option<Content>)
    | Outside(left: Option<Content>, newToken: Token)

  predicate IsUser(a: Action) {
    a.Open? || a.Change? || a.Close? || a.Save? || a.Reload? || a.Overwrite?
  }

  predicate Answered(x: Session) {
    x.ReadDone? || x.WriteDone? || x.Mismatch? || x.Failed?
  }

  predicate Enabled(s: State, a: Action) {
    match a
    case Open(p, x) => p !in s.tabs && x !in s.sessions
    case Change(p, _) => p in s.tabs
    case Close(p) => p in s.tabs
    case Save(p, x) => p in s.tabs && s.tabs[p].dirty && x !in s.sessions
    case Reload(p, x) => x !in s.sessions
    case Overwrite(p, x) => p in s.tabs && x !in s.sessions
    case ReadFile(x, _) => x in s.sessions && s.sessions[x].Reading?
    case StatAfterRead(x, _) => x in s.sessions && s.sessions[x].GotBytes?
    case CheckRevision(x, _) => x in s.sessions && s.sessions[x].Writing?
    case WriteFile(x, ok, newToken) =>
      x in s.sessions && s.sessions[x].Checked? && newToken != ""
    case StatAfterWrite(x, _) => x in s.sessions && s.sessions[x].Wrote?
    case Deliver(x, _) => x in s.sessions && Answered(s.sessions[x])
    case Outside(left, newToken) => left.Some? ==> newToken != ""
  }

  /** The token a save carries: the cached revision, or none. */
  function TokenOf(t: Tab): Token {
    if t.revision.Some? then t.revision.value else ""
  }

  function StatToken(s: State, ok: bool): Option<Token> {
    if ok && s.disk.Some? then Some(s.disk.value.token) else None
  }

  /** The next phase of the session an action advances or starts. */
  function NextSession(s: State, a: Action): Session
    requires Enabled(s, a) && !a.Change? && !a.Close? && !a.Outside? && !a.Deliver?
  {
    match a
    case Open(p, _) => Reading(p, ForOpen)
    case Reload(p, _) => Reading(p, ForReload)
    case Save(p, _) => Writing(p, s.tabs[p].content, TokenOf(s.tabs[p]), false)
    case Overwrite(p, _) => Writing(p, s.tabs[p].content, "", true)
    case ReadFile(x, ok) =>
      var r := s.sessions[x];
      if ok && s.disk.Some? then GotBytes(r.panel, r.purpose, s.disk.value.content) else Failed(r.panel)
    case StatAfterRead(x, ok) =>
      ReadDone(s.sessions[x].panel, s.sessions[x].purpose, s.sessions[x].bytes, StatToken(s, ok))
    case CheckRevision(x, ok) =>
      var w := s.sessions[x];
      if !Guarded(w) then Checked(w.panel, w.sent, w.token, w.force)
      else if !ok then Failed(w.panel)
      else if s.disk.None? then Mismatch(w.panel, "")
      else if s.disk.value.token == w.token then Checked(w.panel, w.sent, w.token, w.force)
      else Mismatch(w.panel, s.disk.value.token)
    case WriteFile(x, ok, _) =>
      var w := s.sessions[x];
      if ok then Wrote(w.panel, w.sent, w.token, w.force) else Failed(w.panel)
    case StatAfterWrite(x, ok) =>
      WriteDone(s.sessions[x].panel, s.sessions[x].sent, StatToken(s, ok))
  }

  /** A delivered read fills the panel's tab: a fresh one when opening, the open one when reloading. */
  predicate Adopts(s: State, r: Session)
    requires r.ReadDone?
  {
    r.purpose.ForReload? <==> r.panel in s.tabs
  }

  /** What a delivered response makes of the panel's tab. */
  function Delivered(s: State, r: Session, stash: Option<Content>): map<PanelId, Tab> {
    match r
    case ReadDone(p, purpose, bytes, rev) =>
      if !Adopts(s, r) then s.tabs
      else s.tabs[p := if purpose.ForOpen? then Opened(bytes, rev, stash) else Reloaded(bytes, rev)]
    case WriteDone(p, sent, rev) => if p in s.tabs then s.tabs[p := Saved(s.tabs[p], sent, rev)] else s.tabs
    case _ => s.tabs
  }

  function Known(s: State, p: PanelId): set<Content> {
    if p in s.known then s.known[p] else {}
  }

  predicate Writes(a: Action) {
    a.Outside? || (a.WriteFile? && a.ok)
  }

  function NextDisk(s: State, a: Action): Option<File>
    requires Enabled(s, a)
  {
    if a.WriteFile? && a.ok then Some(File(s.sessions[a.x].sent, a.newToken))
    else if a.Outside? then (if a.left.Some? then Some(File(a.left.value, a.newToken)) else None)
    else s.disk
  }

  function NextTabs(s: State, a: Action): map<PanelId, Tab>
    requires Enabled(s, a)
  {
    if a.Change? then s.tabs[a.p := Changed(s.tabs[a.p], a.content)]
    else if a.Close? then s.tabs - {a.p}
    else if a.Deliver? then Delivered(s, s.sessions[a.x], a.stash)
    else s.tabs
  }

  /** A panel comes to know what it writes, and what a delivered read puts in its tab. */
  function Learns(s: State, a: Action): map<PanelId, set<Content>>
    requires Enabled(s, a)
  {
    if a.WriteFile? && a.ok then
      var w := s.sessions[a.x];
      s.known[w.panel := Known(s, w.panel) + {w.sent}]
    else if a.Deliver? && s.sessions[a.x].ReadDone? && Adopts(s, s.sessions[a.x]) then
      var r := s.sessions[a.x];
      s.known[r.panel := Known(s, r.panel) + {r.bytes}]
    else s.known
  }

  function Step(s: State, a: Action): State
    requires Enabled(s, a)
  {
    var disk := NextDisk(s, a);
    State(
      disk,
      NextTabs(s, a),
      if a.Change? || a.Close? || a.Outside? then s.sessions
      else if a.Deliver? then s.sessions - {a.x}
      else s.sessions[a.x := NextSession(s, a)],
      if Writes(a) && disk.Some? then s.issued[disk.value.token := disk.value.content] else s.issued,
      Learns(s, a))
  }

  function Exec(run: seq<Action>): Option<State> {
    if run == [] then Some(INIT)
    else
      var before := Exec(run[..|run| - 1]);
      if before.Some? && Enabled(before.value, run[|run| - 1]) then Some(Step(before.value, run[|run| - 1])) else None
  }

  /** The action gives its content no token that another content has had. */
  predicate IssuesAnew(s: State, a: Action)
    requires Enabled(s, a) && Writes(a)
  {
    var disk := NextDisk(s, a);
    disk.Some? && disk.value.token in s.issued ==> s.issued[disk.value.token] == disk.value.content
  }

  /** The action, taken in this state, keeps the conditions `k`. */
  ghost predicate Undisturbed(s: State, a: Action, k: set<Condition>)
    requires Enabled(s, a)
  {
    Writes(a) ==>
      && (forall y <- s.sessions :: InWindow(s.sessions[y], k) ==> a.WriteFile? && a.x == y)
      && (DistinctTokens in k ==> IssuesAnew(s, a))
  }

  ghost predicate QuietIn(run: seq<Action>, k: set<Condition>) {
    run == [] ||
    (QuietIn(run[..|run| - 1], k) && Exec(run[..|run| - 1]).Some?
     && Enabled(Exec(run[..|run| - 1]).value, run[|run| - 1])
     && Undisturbed(Exec(run[..|run| - 1]).value, run[|run| - 1], k))
  }

  ghost predicate Quiet(run: seq<Action>) {
    QuietIn(run, CONDITIONS)
  }

  // ---- the invariant of quiet runs ----

  predicate TabOk(s: State, p: PanelId)
    requires p in s.tabs
  {
    var t := s.tabs[p];
    && (t.dirty <==> t.content != t.savedContent)
    && t.savedContent in Known(s, p)
    && (t.revision.Some? ==> t.revision.value in s.issued && s.issued[t.revision.value] in Known(s, p))
  }

  predicate SessionOk(s: State, x: SessionId)
    requires x in s.sessions
  {
    match s.sessions[x]
    case GotBytes(_, _, bytes) => s.disk.Some? && s.disk.value.content == bytes
    case ReadDone(_, _, bytes, rev) => rev.Some? ==> Lookup(s.issued, rev.value) == Some(bytes)
    case Writing(p, _, token, force) => Guarded(s.sessions[x]) ==> token in s.issued && s.issued[token] in Known(s, p)
    case Checked(p, _, token, force) =>
      Guarded(s.sessions[x]) ==>
        token in s.issued && s.issued[token] in Known(s, p) && s.disk.Some? && s.disk.value.token == token
    case Wrote(p, sent, _, _) => sent in Known(s, p) && s.disk.Some? && s.disk.value.content == sent
    case WriteDone(p, sent, rev) => sent in Known(s, p) && (rev.Some? ==> Lookup(s.issued, rev.value) == Some(sent))
    case _ => true
  }

  predicate DiskOk(s: State) {
    "" !in s.issued && (s.disk.Some? ==> Lookup(s.issued, s.disk.value.token) == Some(s.disk.value.content))
  }

  ghost predicate Inv(s: State) {
    && DiskOk(s)
    && (forall p <- s.tabs :: TabOk(s, p))
    && (forall x <- s.sessions :: SessionOk(s, x))
  }

  /** Tokens and knowledge only accumulate. */
  lemma StepAccumulates(s: State, a: Action)
    requires Enabled(s, a) && Undisturbed(s, a, CONDITIONS)
    ensures forall t <- s.issued :: Lookup(Step(s, a).issued, t) == Some(s.issued[t])
    ensures forall p: PanelId :: Known(s, p) <= Known(Step(s, a), p)
  {
  }

  lemma StepKeepsTab(s: State, a: Action, p: PanelId)
    requires Inv(s) && Enabled(s, a) && Undisturbed(s, a, CONDITIONS) && p in Step(s, a).tabs
    ensures TabOk(Step(s, a), p)
  {
    StepAccumulates(s, a);
    if p in s.tabs { assert TabOk(s, p); }
    if a.Deliver? { DeliveryKeepsTab(s, a, p); }
  }

  lemma DeliveryKeepsTab(s: State, a: Action, p: PanelId)
    requires Inv(s) && Enabled(s, a) && a.Deliver? && p in Step(s, a).tabs
    ensures TabOk(Step(s, a), p)
  {
    assert SessionOk(s, a.x);
    if p in s.tabs { assert TabOk(s, p); }
  }

  lemma StepKeepsOtherSession(s: State, a: Action, x: SessionId)
    requires Inv(s) && Enabled(s, a) && Undisturbed(s, a, CONDITIONS) && x in s.sessions && x in Step(s, a).sessions
    requires Step(s, a).sessions[x] == s.sessions[x]
    ensures SessionOk(Step(s, a), x)
  {
    assert SessionOk(s, x);
    StepAccumulates(s, a);
  }

  lemma StepKeepsOwnSession(s: State, a: Action)
    requires Inv(s) && Enabled(s, a) && Undisturbed(s, a, CONDITIONS)
    requires !a.Change? && !a.Close? && !a.Outside? && !a.Deliver?
    ensures SessionOk(Step(s, a), a.x)
  {
    StepAccumulates(s, a);
    if a.Save? { assert TabOk(s, a.p); }
    if !IsUser(a) { assert SessionOk(s, a.x); }
  }

  lemma StepKeepsInv(s: State, a: Action)
    requires Inv(s) && Enabled(s, a) && Undisturbed(s, a, CONDITIONS)
    ensures Inv(Step(s, a))
  {
    forall p | p in Step(s, a).tabs
      ensures TabOk(Step(s, a), p)
    {
      StepKeepsTab(s, a, p);
    }
    forall x | x in Step(s, a).sessions
      ensures SessionOk(Step(s, a), x)
    {
      if x in s.sessions && Step(s, a).sessions[x] == s.sessions[x] {
        StepKeepsOtherSession(s, a, x);
      } else {
        StepKeepsOwnSession(s, a);
      }
    }
  }

  lemma {:induction false} QuietRunsKeepInv(run: seq<Action>)
    requires Exec(run).Some? && Quiet(run)
    ensures Inv(Exec(run).value)
  {
    if run != [] {
      QuietRunsKeepInv(run[..|run| - 1]);
      StepKeepsInv(Exec(run[..|run| - 1]).value, run[|run| - 1]);
    }
  }

  // ---- main results ----

  /** `a` is a session's write that was checked against a revision token. */
  predicate GuardedWrite(s: State, a: Action) {
    a.WriteFile? && a.ok && Enabled(s, a) && Guarded(s.sessions[a.x])
  }

  /** A checked save replaces only content its own tab has loaded or written. */
  lemma NoSilentOverwrite(run: seq<Action>, a: Action)
    requires Exec(run).Some? && Quiet(run) && GuardedWrite(Exec(run).value, a)
    ensures var s := Exec(run).value;
            s.disk.Some? && s.disk.value.content in Known(s, s.sessions[a.x].panel)
  {
    QuietRunsKeepInv(run);
    assert SessionOk(Exec(run).value, a.x);
  }

  /** A checked save over content its tab has never held is refused, and told the live token. */
  lemma UnseenContentIsRefused(run: seq<Action>, a: Action)
    requires Exec(run).Some? && Quiet(run) && Enabled(Exec(run).value, a) && a.CheckRevision? && a.ok
    requires Guarded(Exec(run).value.sessions[a.x])
    requires Exec(run).value.disk.Some? ==>
               Exec(run).value.disk.value.content !in Known(Exec(run).value, Exec(run).value.sessions[a.x].panel)
    ensures var s := Exec(run).value;
            Step(s, a).sessions[a.x] == Mismatch(s.sessions[a.x].panel, if s.disk.Some? then s.disk.value.token else "")
  {
    QuietRunsKeepInv(run);
    assert SessionOk(Exec(run).value, a.x);
  }

  /** In every run, quiet or not, the dirty mark says whether the buffer differs from the saved content. */
  lemma {:induction false} DirtyMarkIsExact(run: seq<Action>, p: PanelId)
    requires Exec(run).Some? && p in Exec(run).value.tabs
    ensures var t := Exec(run).value.tabs[p]; t.dirty <==> t.content != t.savedContent
  {
    if run != [] {
      var before := Exec(run[..|run| - 1]).value;
      if p in before.tabs {
        DirtyMarkIsExact(run[..|run| - 1], p);
      }
    }
  }

  // ---- what the editor shows and sends ----

  /** Every other panel's tab is as it was. */
  ghost predicate OthersKept(s: State, s': State, p: PanelId) {
    forall q: PanelId :: q != p ==> Lookup(s'.tabs, q) == Lookup(s.tabs, q)
  }

  /** A delivered read a panel adopts shows the bytes, or the stash it opened with, and keeps their token. */
  lemma ReadFillsTab(run: seq<Action>, x: SessionId, stash: Option<Content>)
    requires Exec(run).Some? && Enabled(Exec(run).value, Deliver(x, stash)) && Exec(run).value.sessions[x].ReadDone?
    ensures var s, s' := Exec(run).value, Step(Exec(run).value, Deliver(x, stash));
            var r := s.sessions[x];
            && OthersKept(s, s', r.panel)
            && if r.purpose.ForReload? <==> r.panel in s.tabs then
                 && r.panel in s'.tabs
                 && s'.tabs[r.panel].revision == r.rev && s'.tabs[r.panel].savedContent == r.bytes
                 && s'.tabs[r.panel].content == (if r.purpose.ForOpen? && stash.Some? then stash.value else r.bytes)
               else s'.tabs == s.tabs
  {
  }

  /** A delivered write renews the token if it answered one, and leaves the buffer alone. */
  lemma WriteRenewsTab(run: seq<Action>, x: SessionId, stash: Option<Content>)
    requires Exec(run).Some? && Enabled(Exec(run).value, Deliver(x, stash)) && Exec(run).value.sessions[x].WriteDone?
    ensures var s, s' := Exec(run).value, Step(Exec(run).value, Deliver(x, stash));
            var w := s.sessions[x];
            && OthersKept(s, s', w.panel)
            && (w.panel in s.tabs <==> w.panel in s'.tabs)
            && (w.panel in s.tabs ==>
              && s'.tabs[w.panel].revision == (if w.rev.Some? then w.rev else s.tabs[w.panel].revision)
              && s'.tabs[w.panel].savedContent == w.sent
              && s'.tabs[w.panel].content == s.tabs[w.panel].content)
  {
  }

  /** Every other step leaves the tabs alone, but for the text a user types and the tab a user closes. */
  lemma OtherStepsKeepTabs(run: seq<Action>, a: Action)
    requires Exec(run).Some? && Enabled(Exec(run).value, a)
    requires a.Deliver? ==> var x := Exec(run).value.sessions[a.x]; !x.ReadDone? && !x.WriteDone?
    ensures var s, s' := Exec(run).value, Step(Exec(run).value, a);
            if a.Change? then
              && OthersKept(s, s', a.p) && a.p in s'.tabs && s'.tabs[a.p].content == a.content
              && s'.tabs[a.p].savedContent == s.tabs[a.p].savedContent
              && s'.tabs[a.p].revision == s.tabs[a.p].revision
            else if a.Close? then OthersKept(s, s', a.p) && a.p !in s'.tabs
            else s'.tabs == s.tabs
  {
  }

  /** Every stat of the run that follows a read found its file. */
  predicate StatsAnswer(run: seq<Action>)
    requires Exec(run).Some?
  {
    run == [] ||
    (StatsAnswer(run[..|run| - 1]) &&
     (run[|run| - 1].StatAfterRead? ==> run[|run| - 1].ok && Exec(run[..|run| - 1]).value.disk.Some?))
  }

  predicate HasToken(rev: Option<Token>) {
    rev.Some? && rev.value != ""
  }

  /** Every token the editor or the agent holds is a real one. */
  ghost predicate TokensOk(s: State) {
    && (s.disk.Some? ==> s.disk.value.token != "")
    && (forall p <- s.tabs :: HasToken(s.tabs[p].revision))
    && (forall x <- s.sessions :: SessionHasToken(s.sessions[x]))
  }

  predicate SessionHasToken(x: Session) {
    match x
    case ReadDone(_, _, _, rev) => HasToken(rev)
    case WriteDone(_, _, rev) => rev.Some? ==> rev.value != ""
    case Writing(_, _, token, force) => force || token != ""
    case Checked(_, _, token, force) => force || token != ""
    case _ => true
  }

  lemma StepKeepsTokens(s: State, a: Action)
    requires TokensOk(s) && Enabled(s, a) && (a.StatAfterRead? ==> a.ok && s.disk.Some?)
    ensures TokensOk(Step(s, a))
  {
    forall p | p in Step(s, a).tabs
      ensures HasToken(Step(s, a).tabs[p].revision)
    {
      if a.Deliver? { assert SessionHasToken(s.sessions[a.x]); }
    }
    forall x | x in Step(s, a).sessions
      ensures SessionHasToken(Step(s, a).sessions[x])
    {
      if x in s.sessions { assert SessionHasToken(s.sessions[x]); }
    }
  }

  lemma {:induction false} AnsweredRunsKeepTokens(run: seq<Action>)
    requires Exec(run).Some? && StatsAnswer(run)
    ensures TokensOk(Exec(run).value)
  {
    if run != [] {
      AnsweredRunsKeepTokens(run[..|run| - 1]);
      StepKeepsTokens(Exec(run[..|run| - 1]).value, run[|run| - 1]);
    }
  }

  /** When every read came with its revision, an ordinary save sends the buffer with a token to check. */
  lemma {:induction false} SavesAreGuarded(run: seq<Action>, a: Action)
    requires Exec(run).Some? && StatsAnswer(run) && Enabled(Exec(run).value, a) && a.Save?
    ensures var s := Exec(run).value;
            var w := Step(s, a).sessions[a.x];
            && w.Writing? && Guarded(w) && w.panel == a.p
            && w.sent == s.tabs[a.p].content && Some(w.token) == s.tabs[a.p].revision
  {
    AnsweredRunsKeepTokens(run);
    assert HasToken(Exec(run).value.tabs[a.p].revision);
  }

  /** An overwrite sends the buffer as it is, and asks for no check. */
  lemma OverwritesSendTheBuffer(run: seq<Action>, a: Action)
    requires Exec(run).Some? && Enabled(Exec(run).value, a) && a.Overwrite?
    ensures var s := Exec(run).value;
            var w := Step(s, a).sessions[a.x];
            w.Writing? && w.force && w.panel == a.p && w.sent == s.tabs[a.p].content
  {
  }

  /** So only a forced overwrite can replace content its tab has never held. */
  lemma {:induction false} OrdinarySavesAreSafe(run: seq<Action>, a: Action)
    requires Exec(run).Some? && Quiet(run) && StatsAnswer(run)
    requires Enabled(Exec(run).value, a) && a.WriteFile? && a.ok && !Exec(run).value.sessions[a.x].force
    ensures var s := Exec(run).value;
            s.disk.Some? && s.disk.value.content in Known(s, s.sessions[a.x].panel)
  {
    AnsweredRunsKeepTokens(run);
    assert SessionHasToken(Exec(run).value.sessions[a.x]);
    NoSilentOverwrite(run, a);
  }

  /** The check lets a write through exactly when it is not guarded or its token is the live one. */
  lemma {:induction false} CheckPassesIff(run: seq<Action>, a: Action)
    requires Exec(run).Some? && Enabled(Exec(run).value, a) && a.CheckRevision?
    ensures var s := Exec(run).value;
            var w, w' := s.sessions[a.x], Step(s, a).sessions[a.x];
            && (w'.Checked? <==>
              w.force || w.token == "" || (a.ok && s.disk.Some? && s.disk.value.token == w.token))
            && (w'.Checked? ==> w'.sent == w.sent && w'.panel == w.panel && w'.token == w.token && w'.force == w.force)
            && (!w'.Checked? && a.ok ==> w' == Mismatch(w.panel, if s.disk.Some? then s.disk.value.token else ""))
  {
  }

  lemma ExecMore(run: seq<Action>, a: Action)
    requires Exec(run).Some? && Enabled(Exec(run).value, a)
    ensures Exec(run + [a]) == Some(Step(Exec(run).value, a))
  {
    assert (run + [a])[..|run + [a]| - 1] == run;
  }

  /** A write of its own session, up to the agent's answer. */
  lemma {:induction false} WriteGoesThrough(run: seq<Action>, x: SessionId, newToken: Token)
    requires Exec(run).Some? && x in Exec(run).value.sessions && Exec(run).value.sessions[x].Checked? && newToken != ""
    ensures var after := Exec(run + [WriteFile(x, true, newToken)] + [StatAfterWrite(x, true)]);
            var s := Exec(run).value;
            var w := s.sessions[x];
            && after.Some?
            && after.value.disk == Some(File(w.sent, newToken)) && after.value.tabs == s.tabs
            && after.value.sessions == s.sessions[x := WriteDone(w.panel, w.sent, Some(newToken))]
  {
    ExecMore(run, WriteFile(x, true, newToken));
    ExecMore(run + [WriteFile(x, true, newToken)], StatAfterWrite(x, true));
  }

  /** An answered write is delivered while its tab still holds what was sent. */
  lemma {:induction false} AnswerCleansTab(run: seq<Action>, x: SessionId, newToken: Token)
    requires Exec(run).Some? && x in Exec(run).value.sessions
    requires var s := Exec(run).value;
             var w := s.sessions[x];
             w.WriteDone? && w.rev == Some(newToken) && w.panel in s.tabs && w.sent == s.tabs[w.panel].content
    ensures var after, s := Exec(run + [Deliver(x, None)]), Exec(run).value;
            var w := s.sessions[x];
            && after.Some? && after.value.disk == s.disk && after.value.sessions == s.sessions - {x}
            && after.value.tabs == s.tabs[w.panel := Tab(w.sent, w.sent, Some(newToken), false)]
  {
    ExecMore(run, Deliver(x, None));
  }

  lemma DropsOnlyOwn<K, V>(m: map<K, V>, k: K, v: V)
    ensures m[k := v] - {k} == m - {k}
  {
  }

  /** A save or an overwrite that the check lets through. */
  lemma {:induction false} SavePassesCheck(run: seq<Action>, first: Action)
    requires Exec(run).Some? && Enabled(Exec(run).value, first) && Uncontested(Exec(run).value, first)
    ensures var after, s := Exec(run + [first] + [CheckRevision(first.x, true)]), Exec(run).value;
            && after.Some? && after.value.tabs == s.tabs && after.value.disk == s.disk
            && first.x in after.value.sessions && after.value.sessions - {first.x} == s.sessions
            && var w := after.value.sessions[first.x];
            w.Checked? && w.panel == first.p && w.sent == s.tabs[first.p].content
  {
    ExecMore(run, first);
    ExecMore(run + [first], CheckRevision(first.x, true));
  }

  /** The file is still the one the tab's token was given for, or the check is not asked for. */
  predicate Uncontested(s: State, first: Action) {
    || first.Overwrite?
    || (first.Save? && first.p in s.tabs &&
        (HasToken(s.tabs[first.p].revision) ==> s.disk.Some? && Some(s.disk.value.token) == s.tabs[first.p].revision))
  }

  /** The run, and then one save that nobody disturbs. */
  function ThenSave(run: seq<Action>, first: Action, newToken: Token): seq<Action>
    requires first.Save? || first.Overwrite?
  {
    run + [first] + [CheckRevision(first.x, true)]
        + [WriteFile(first.x, true, newToken)] + [StatAfterWrite(first.x, true)] + [Deliver(first.x, None)]
  }

  /** A save nobody contests puts the buffer on disk, and leaves the tab clean with the new token. */
  lemma {:induction false} UncontestedSaveLands(run: seq<Action>, first: Action, newToken: Token)
    requires Exec(run).Some? && Enabled(Exec(run).value, first) && newToken != ""
    requires Uncontested(Exec(run).value, first)
    ensures var after, s := Exec(ThenSave(run, first, newToken)), Exec(run).value;
            var text := s.tabs[first.p].content;
            && after.Some? && after.value.disk == Some(File(text, newToken)) && after.value.sessions == s.sessions
            && after.value.tabs == s.tabs[first.p := Tab(text, text, Some(newToken), false)]
  {
    var checked := run + [first] + [CheckRevision(first.x, true)];
    SavePassesCheck(run, first);
    WriteGoesThrough(checked, first.x, newToken);
    var written := checked + [WriteFile(first.x, true, newToken)] + [StatAfterWrite(first.x, true)];
    AnswerCleansTab(written, first.x, newToken);
    DropsOnlyOwn(Exec(checked).value.sessions, first.x, Exec(written).value.sessions[first.x]);
  }

  // ---- giving up any one condition defeats the check ----

  /** A checked write that replaces content its panel has never held. */
  ghost predicate SilentOverwrite(run: seq<Action>, a: Action) {
    && Exec(run).Some? && GuardedWrite(Exec(run).value, a)
    && var s := Exec(run).value;
       s.disk.Some? && s.disk.value.content !in Known(s, s.sessions[a.x].panel)
  }

  /** One more action of a run that keeps the conditions `k`. */
  lemma Then(run: seq<Action>, a: Action, k: set<Condition>) returns (longer: seq<Action>)
    requires Exec(run).Some? && Enabled(Exec(run).value, a)
    requires QuietIn(run, k) && Undisturbed(Exec(run).value, a, k)
    ensures Exec(longer) == Some(Step(Exec(run).value, a)) && QuietIn(longer, k)
  {
    longer := run + [a];
    assert longer[..|longer| - 1] == run;
  }

  /** The only panel changes its text and saves, up to the revision check. */
  lemma EditAndSave(shown: seq<Action>, x: SessionId, text: Content, k: set<Condition>) returns (run: seq<Action>)
    requires Exec(shown).Some? && QuietIn(shown, k)
    requires var s := Exec(shown).value;
             && s.sessions == map[] && s.disk.Some? && s.disk.value.token != ""
             && 0 in s.tabs && s.tabs[0].revision == Some(s.disk.value.token) && s.tabs[0].savedContent != text
    ensures Exec(run).Some? && QuietIn(run, k)
    ensures var s, s' := Exec(shown).value, Exec(run).value;
            && s'.disk == s.disk && s'.issued == s.issued && Known(s', 0) == Known(s, 0)
            && s'.tabs == s.tabs[0 := Changed(s.tabs[0], text)]
            && s'.sessions == map[x := Checked(0, text, s.disk.value.token, false)]
  {
    run := Then(shown, Change(0, text), k);
    run := Then(run, Save(0, x), k);
    run := Then(run, CheckRevision(x, true), k);
  }

  lemma StartReading(k: set<Condition>) returns (run: seq<Action>)
    ensures Exec(run) == Some(State(
              Some(File("v1", "t1")), map[], map[0 := GotBytes(0, ForOpen, "v1")], map["t1" := "v1"], map[]))
    ensures QuietIn(run, k)
  {
    run := Then([], Outside(Some("v1"), "t1"), k);
    run := Then(run, Open(0, 0), k);
    run := Then(run, ReadFile(0, true), k);
    assert Exec(run).value.sessions == map[0 := GotBytes(0, ForOpen, "v1")];
    assert Exec(run).value.issued == map["t1" := "v1"];
  }

  lemma FinishReading(reading: seq<Action>, k: set<Condition>) returns (run: seq<Action>)
    requires Exec(reading).Some? && Exec(reading).value.sessions == map[0 := GotBytes(0, ForOpen, "v1")]
    requires Exec(reading).value.tabs == map[] && Exec(reading).value.known == map[] && Exec(reading).value.disk.Some?
    requires QuietIn(reading, k)
    ensures Exec(run).Some? && QuietIn(run, k)
    ensures var s, s' := Exec(reading).value, Exec(run).value;
            && s'.disk == s.disk && s'.issued == s.issued && s'.sessions == map[] && Known(s', 0) == {"v1"}
            && s'.tabs == map[0 := Tab("v1", "v1", Some(s.disk.value.token), false)]
  {
    run := Then(reading, StatAfterRead(0, true), k);
    run := Then(run, Deliver(0, None), k);
  }

  /** A write between read and stat pairs old bytes with the new token. */
  lemma ReadWindowRace() returns (run: seq<Action>, a: Action)
    ensures SilentOverwrite(run, a) && QuietIn(run, CONDITIONS - {ReadWindow})
  {
    var k := CONDITIONS - {ReadWindow};
    run := StartReading(k);
    run := Then(run, Outside(Some("v2"), "t2"), k);
    run := FinishReading(run, k);
    run := EditAndSave(run, 1, "v3", k);
    a := WriteFile(1, true, "t3");
  }

  /** A panel has loaded "v1" with its own token. */
  lemma OpenOnce(k: set<Condition>) returns (run: seq<Action>)
    ensures Exec(run).Some? && QuietIn(run, k)
    ensures var s := Exec(run).value;
            && s.disk == Some(File("v1", "t1")) && s.issued == map["t1" := "v1"] && s.sessions == map[]
            && Known(s, 0) == {"v1"} && s.tabs == map[0 := Tab("v1", "v1", Some("t1"), false)]
  {
    run := StartReading(k);
    run := FinishReading(run, k);
  }

  /** Someone outside replaces the file while no session stands in a window of `k`. */
  lemma OutsideWrites(before: seq<Action>, file: File, k: set<Condition>) returns (run: seq<Action>)
    requires Exec(before).Some? && QuietIn(before, k) && file.token != ""
    requires forall x <- Exec(before).value.sessions :: !InWindow(Exec(before).value.sessions[x], k)
    requires DistinctTokens in k ==> file.token !in Exec(before).value.issued
    ensures Exec(run).Some? && QuietIn(run, k)
    ensures var s, s' := Exec(before).value, Exec(run).value;
            && s'.disk == Some(file) && s'.sessions == s.sessions && s'.tabs == s.tabs
            && Known(s', 0) == Known(s, 0) && s'.issued == s.issued[file.token := file.content]
  {
    run := Then(before, Outside(Some(file.content), file.token), k);
  }

  /** A write between check and write is replaced unseen. */
  lemma CheckWindowRace() returns (run: seq<Action>, a: Action)
    ensures SilentOverwrite(run, a) && QuietIn(run, CONDITIONS - {CheckWindow})
  {
    var k := CONDITIONS - {CheckWindow};
    run := OpenOnce(k);
    run := EditAndSave(run, 1, "v3", k);
    run := OutsideWrites(run, File("v2", "t2"), k);
    a := WriteFile(1, true, "t3");
  }

  /** A write that ends up with the token of the content it replaces is not noticed, however late the check. */
  lemma ReusedTokenRace() returns (run: seq<Action>, a: Action)
    ensures SilentOverwrite(run, a) && QuietIn(run, CONDITIONS - {DistinctTokens})
  {
    var k := CONDITIONS - {DistinctTokens};
    run := OpenOnce(k);
    run := OutsideWrites(run, File("v2", "t1"), k);
    run := EditAndSave(run, 1, "v3", k);
    a := WriteFile(1, true, "t3");
  }

  /** A checked save is written. */
  lemma WriteChecked(checked: seq<Action>, k: set<Condition>) returns (run: seq<Action>)
    requires Exec(checked).Some? && QuietIn(checked, k)
    requires var s := Exec(checked).value;
             && s.sessions == map[1 := Checked(0, "v3", "t1", false)]
             && s.issued == map["t1" := "v1"] && Known(s, 0) == {"v1"}
    ensures Exec(run).Some? && QuietIn(run, k)
    ensures var s, s' := Exec(checked).value, Exec(run).value;
            && s'.sessions == map[1 := Wrote(0, "v3", "t1", false)]
            && s'.tabs == s.tabs && Known(s', 0) == {"v1", "v3"} && s'.issued == map["t1" := "v1", "t3" := "v3"]
  {
    run := Then(checked, WriteFile(1, true, "t3"), k);
  }

  /** Its stat then answers with the token of the content that overtook it. */
  lemma AnswerOvertaken(overtaken: seq<Action>, k: set<Condition>) returns (run: seq<Action>)
    requires Exec(overtaken).Some? && QuietIn(overtaken, k)
    requires var s := Exec(overtaken).value;
             0 in s.tabs && s.disk.Some? && s.sessions == map[1 := Wrote(0, "v3", "t1", false)]
    ensures Exec(run).Some? && QuietIn(run, k)
    ensures var s, s' := Exec(overtaken).value, Exec(run).value;
            && s'.disk == s.disk && s'.issued == s.issued && s'.sessions == map[] && Known(s', 0) == Known(s, 0)
            && s'.tabs == s.tabs[0 := Saved(s.tabs[0], "v3", Some(s.disk.value.token))]
  {
    run := Then(overtaken, StatAfterWrite(1, true), k);
    run := Then(run, Deliver(1, None), k);
  }

  /** A panel has saved "v3" and been given the token of "v4". */
  lemma SaveOvertaken(k: set<Condition>) returns (run: seq<Action>)
    requires StatWindow !in k
    ensures Exec(run).Some? && QuietIn(run, k)
    ensures var s := Exec(run).value;
            && s.disk == Some(File("v4", "t4")) && s.sessions == map[] && Known(s, 0) == {"v1", "v3"}
            && 0 in s.tabs && s.tabs[0].revision == Some("t4") && s.tabs[0].savedContent == "v3"
            && "t5" !in s.issued
  {
    run := OpenOnce(k);
    run := EditAndSave(run, 1, "v3", k);
    run := WriteChecked(run, k);
    run := OutsideWrites(run, File("v4", "t4"), k);
    run := AnswerOvertaken(run, k);
  }

  /** A write between a save's write and its stat hands the panel a token for content it never saw. */
  lemma StatWindowRace() returns (run: seq<Action>, a: Action)
    ensures SilentOverwrite(run, a) && QuietIn(run, CONDITIONS - {StatWindow})
  {
    run := SaveOvertaken(CONDITIONS - {StatWindow});
    run := EditAndSave(run, 2, "v5", CONDITIONS - {StatWindow});
    a := WriteFile(2, true, "t5");
  }

  lemma ThereAreFourConditions(c: Condition)
    ensures c in CONDITIONS
  {
    match c
    case ReadWindow =>
    case CheckWindow =>
    case StatWindow =>
    case DistinctTokens =>
  }

  lemma {:induction false} QuietInFewer(run: seq<Action>, k: set<Condition>, fewer: set<Condition>)
    requires QuietIn(run, k) && fewer <= k
    ensures QuietIn(run, fewer)
  {
    if run != [] { QuietInFewer(run[..|run| - 1], k, fewer); }
  }

  /** Runs that keep the conditions `k` never overwrite unseen content. */
  ghost predicate Protects(k: set<Condition>) {
    forall run, a :: QuietIn(run, k) ==> !SilentOverwrite(run, a)
  }

  lemma MissingOneIsNotEnough(k: set<Condition>, c: Condition) returns (run: seq<Action>, a: Action)
    requires c !in k
    ensures QuietIn(run, k) && SilentOverwrite(run, a)
  {
    match c {
      case ReadWindow => run, a := ReadWindowRace();
      case CheckWindow => run, a := CheckWindowRace();
      case StatWindow => run, a := StatWindowRace();
      case DistinctTokens => run, a := ReusedTokenRace();
    }
    forall d | d in k
      ensures d in CONDITIONS - {c}
    {
      ThereAreFourConditions(d);
    }
    QuietInFewer(run, CONDITIONS - {c}, k);
  }

  /** Exactly which conditions keep saves from overwriting unseen content: all four. */
  lemma ProtectsIffAllConditions(k: set<Condition>)
    ensures Protects(k) <==> k == CONDITIONS
  {
    if k == CONDITIONS {
      forall run, a | QuietIn(run, k)
        ensures !SilentOverwrite(run, a)
      {
        if SilentOverwrite(run, a) { NoSilentOverwrite(run, a); }
      }
    } else if c :| c in CONDITIONS && c !in k {
      var run, a := MissingOneIsNotEnough(k, c);
    } else {
      forall d | d in k
        ensures d in CONDITIONS
      {
        ThereAreFourConditions(d);
      }
      assert false;
    }
  }
}
