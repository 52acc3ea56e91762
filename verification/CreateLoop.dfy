/**
 Creating and starting a container: pull by policy, then a bounded loop that
 recovers from a missing image, a name in use and a port taken. The daemon
 answers every call as it likes.
 */
module CreateLoop {
  import opened Prelude

  const MAX_PULL_ATTEMPTS: nat := 4
  const MAX_PORT_RETRY_ATTEMPTS: nat := 3

  type Id = string

  datatype PullPolicy = Always | IfNotPresent | Never

  datatype Presence = Present | Absent | Unknown

  datatype CreateAnswer = Created(id: Id) | ImageMissing | NameInUse | CreateFailed

  datatype StartAnswer = Started | PortTaken | StartFailed

  datatype Config = Config(name: string, exposedPort: nat, policy: PullPolicy)

  /** A container as it was created; `hostPort` is the port its config binds. */
  datatype Container = Container(id: Id, hostPort: Option<nat>)

  datatype ContainerInfo = ContainerInfo(id: Id, hostPort: nat)

  datatype Failure = PullFailed | NotPresent | PresenceUnknown | NoFreePort | CreateRefused | StartRefused

  /** The daemon's answers by call number, and what it has been asked so far. */
  class Daemon {
    const presence: Presence
    const pullAnswers: nat -> bool
    const createAnswers: nat -> CreateAnswer
    const startAnswers: nat -> StartAnswer
    const freePorts: nat -> Option<nat>

    var pulls: nat
    var creates: nat
    var ports: nat
    var created: seq<Container>
    var started: seq<Id>
    var removed: seq<Id>
    var removedNames: nat

    constructor (presence: Presence, pullAnswers: nat -> bool, createAnswers: nat -> CreateAnswer,
                 startAnswers: nat -> StartAnswer, freePorts: nat -> Option<nat>)
      ensures pulls == creates == ports == removedNames == 0 && created == [] && started == [] && removed == []
    {
      this.presence, this.pullAnswers, this.createAnswers := presence, pullAnswers, createAnswers;
      this.startAnswers, this.freePorts := startAnswers, freePorts;
      pulls, creates, ports, removedNames := 0, 0, 0, 0;
      created, started, removed := [], [], [];
    }

    method Pull() returns (ok: bool)
      modifies this`pulls
      ensures pulls == old(pulls) + 1 && ok == pullAnswers(old(pulls))
    {
      ok := pullAnswers(pulls);
      pulls := pulls + 1;
    }

    method Create(hostPort: Option<nat>) returns (answer: CreateAnswer)
      modifies this`creates, this`created
      ensures creates == old(creates) + 1 && answer == createAnswers(old(creates))
      ensures created == old(created) + if answer.Created? then [Container(answer.id, hostPort)] else []
    {
      answer := createAnswers(creates);
      creates := creates + 1;
      if answer.Created? { created := created + [Container(answer.id, hostPort)]; }
    }

    method Start(id: Id) returns (answer: StartAnswer)
      modifies this`started
      ensures started == old(started) + [id] && answer == startAnswers(|old(started)|)
    {
      answer := startAnswers(|started|);
      started := started + [id];
    }

    method AllocateFreeHostPort() returns (port: Option<nat>)
      modifies this`ports
      ensures ports == old(ports) + 1 && port == freePorts(old(ports))
    {
      port := freePorts(ports);
      ports := ports + 1;
    }

    method ForceRemove(id: Id)
      modifies this`removed
      ensures removed == old(removed) + [id]
    {
      removed := removed + [id];
    }

    method ForceRemoveName()
      modifies this`removedNames
      ensures removedNames == old(removedNames) + 1
    {
      removedNames := removedNames + 1;
    }
  }

  function Ids(containers: seq<Container>): seq<Id> {
    seq(|containers|, i requires 0 <= i < |containers| => containers[i].id)
  }

  /** Every container created so far has been removed. */
  ghost predicate AllRemoved(d: Daemon)
    reads d
  {
    d.removed == Ids(d.created) && d.started == Ids(d.created)
  }

  /** Every container but the last has been removed, and the last is the one returned, on its own port. */
  ghost predicate OnlyReturnedIsLeft(d: Daemon, info: ContainerInfo)
    reads d
  {
    && d.created != []
    && d.started == Ids(d.created)
    && d.removed == Ids(d.created[..|d.created| - 1])
    && var last := d.created[|d.created| - 1];
       info.id == last.id && info.hostPort == if last.hostPort.Some? then last.hostPort.value else 0
  }

  /** Up to four pulls: success is a pull that worked, failure four that did not. */
  method PullImageWithRetry(d: Daemon) returns (ok: bool)
    modifies d`pulls
    ensures old(d.pulls) < d.pulls <= old(d.pulls) + MAX_PULL_ATTEMPTS
    ensures ok == d.pullAnswers(d.pulls - 1)
    ensures forall k :: old(d.pulls) <= k < d.pulls - 1 ==> !d.pullAnswers(k)
    ensures !ok ==> d.pulls == old(d.pulls) + MAX_PULL_ATTEMPTS
  {
    var attempt := 1;
    while true
      invariant 1 <= attempt <= MAX_PULL_ATTEMPTS && d.pulls == old(d.pulls) + attempt - 1
      invariant forall k :: old(d.pulls) <= k < d.pulls ==> !d.pullAnswers(k)
      decreases MAX_PULL_ATTEMPTS - attempt
    {
      ok := d.Pull();
      if ok || attempt == MAX_PULL_ATTEMPTS { return; }
      attempt := attempt + 1;
    }
  }

  /** The image is made available, or refused, as the policy says. */
  method EnsureImage(config: Config, d: Daemon) returns (failure: Option<Failure>)
    requires d.pulls == 0
    modifies d`pulls
    ensures d.pulls <= MAX_PULL_ATTEMPTS
    ensures d.pulls > 0 <==> config.policy.Always? || (config.policy.IfNotPresent? && !d.presence.Present?)
    ensures d.pulls > 0 ==>
            && failure == (if d.pullAnswers(d.pulls - 1) then None else Some(PullFailed))
            && (forall k :: 0 <= k < d.pulls - 1 ==> !d.pullAnswers(k))
            && (failure.Some? ==> d.pulls == MAX_PULL_ATTEMPTS)
    ensures config.policy.IfNotPresent? && d.presence.Present? ==> failure.None?
    ensures config.policy.Never? ==>
            failure == (match d.presence
                        case Present => None
                        case Absent => Some(NotPresent)
                        case Unknown => Some(PresenceUnknown))
  {
    failure := None;
    if config.policy.Always? || (config.policy.IfNotPresent? && !d.presence.Present?) {
      var ok := PullImageWithRetry(d);
      if !ok { failure := Some(PullFailed); }
    } else if config.policy.Never? && !d.presence.Present? {
      failure := Some(if d.presence.Absent? then NotPresent else PresenceUnknown);
    }
  }

  /** `Retry` advances the outer loop. */
  datatype Attempt = Got(id: Id) | Retry | GiveUp(failure: Failure)

  /** One create, and at most one more after a recovery; the final attempt never asks for another. */
  method CreateOnce(config: Config, d: Daemon, hostPort: Option<nat>, finalAttempt: bool) returns (r: Attempt)
    modifies d`pulls, d`creates, d`created, d`removedNames
    ensures old(d.creates) < d.creates <= old(d.creates) + 2
    ensures old(d.pulls) <= d.pulls <= old(d.pulls) + MAX_PULL_ATTEMPTS
    ensures config.policy.Never? ==> d.pulls == old(d.pulls)
    ensures finalAttempt ==> !r.Retry?
    ensures d.created == old(d.created) + if r.Got? then [Container(r.id, hostPort)] else []
    ensures old(d.removedNames) <= d.removedNames <= old(d.removedNames) + 1
    ensures d.removedNames > old(d.removedNames) <==> d.createAnswers(old(d.creates)) == NameInUse
    ensures d.pulls > old(d.pulls) <==> d.createAnswers(old(d.creates)) == ImageMissing && !config.policy.Never?
    ensures var first, second := d.createAnswers(old(d.creates)), d.createAnswers(old(d.creates) + 1);
            if first.Created? then r == Got(first.id) && d.creates == old(d.creates) + 1
            else if first.CreateFailed? || (first.ImageMissing? && config.policy.Never?) then r == GiveUp(CreateRefused)
            else if first.ImageMissing? && !d.pullAnswers(d.pulls - 1) then
              r == if finalAttempt then GiveUp(PullFailed) else Retry
            else if second.Created? then r == Got(second.id)
            else r == if finalAttempt then GiveUp(CreateRefused) else Retry
  {
    var answer := d.Create(hostPort);
    if answer.Created? { return Got(answer.id); }
    if answer.ImageMissing? && !config.policy.Never? {
      var ok := PullImageWithRetry(d);
      if !ok { return if finalAttempt then GiveUp(PullFailed) else Retry; }
    } else if answer.NameInUse? {
      d.ForceRemoveName();
    } else {
      return GiveUp(CreateRefused);
    }
    answer := d.Create(hostPort);
    if answer.Created? { return Got(answer.id); }
    return if finalAttempt then GiveUp(CreateRefused) else Retry;
  }

  lemma IdsMore(containers: seq<Container>, c: Container)
    ensures Ids(containers + [c]) == Ids(containers) + [c.id]
    ensures (containers + [c])[..|containers + [c]| - 1] == containers
  {
  }

  /** Start the container just created; one that does not start is removed. */
  method StartOrRemove(d: Daemon, c: Container) returns (answer: StartAnswer)
    requires d.created != [] && d.created[|d.created| - 1] == c
    requires var front := d.created[..|d.created| - 1]; d.started == Ids(front) && d.removed == Ids(front)
    modifies d`started, d`removed
    ensures answer == d.startAnswers(|old(d.started)|)
    ensures answer.Started? ==>
            d.removed == old(d.removed) && d.started == Ids(d.created) && d.startAnswers(|d.started| - 1) == Started
    ensures !answer.Started? ==> AllRemoved(d)
  {
    ghost var front := d.created[..|d.created| - 1];
    assert d.created == front + [c];
    IdsMore(front, c);
    answer := d.Start(c.id);
    if !answer.Started? { d.ForceRemove(c.id); }
  }

  /** What one turn of the loop may ask of the daemon. */
  twostate predicate Spent(d: Daemon, config: Config)
    reads d
  {
    && d.creates <= old(d.creates) + 2 && d.pulls <= old(d.pulls) + MAX_PULL_ATTEMPTS
    && d.ports <= old(d.ports) + 1 && d.removedNames <= old(d.removedNames) + 1
    && (config.policy.Never? ==> d.pulls == old(d.pulls))
    && (config.exposedPort == 0 ==> d.ports == old(d.ports))
  }

  datatype Turn = Running(info: ContainerInfo) | Again | Failed(failure: Failure)

  /** The next port, create and start of this daemon go well. */
  predicate AnswersWell(config: Config, d: Daemon)
    reads d
  {
    && (config.exposedPort > 0 ==> d.freePorts(d.ports).Some?)
    && d.createAnswers(d.creates).Created? && d.startAnswers(|d.started|).Started?
  }

  /** What a turn that came to a start makes of the daemon's answer. */
  predicate FollowsStart(config: Config, finalAttempt: bool, answer: StartAnswer, turn: Turn) {
    match answer
    case Started => turn.Running?
    case PortTaken => turn == if config.exposedPort > 0 && !finalAttempt then Again else Failed(StartRefused)
    case StartFailed => turn == Failed(StartRefused)
  }

  /** One turn leaves nothing behind but a container that runs, and the final turn decides. */
  method TryOnce(config: Config, d: Daemon, finalAttempt: bool) returns (turn: Turn)
    requires AllRemoved(d)
    modifies d
    ensures Spent(d, config)
    ensures finalAttempt ==> !turn.Again?
    ensures !turn.Running? ==> AllRemoved(d)
    ensures turn.Running? ==> OnlyReturnedIsLeft(d, turn.info) && d.startAnswers(|d.started| - 1) == Started
    ensures turn.Running? && config.exposedPort == 0 ==> turn.info.hostPort == 0
    ensures turn.Running? && config.exposedPort > 0 ==>
            d.ports > 0 && d.freePorts(d.ports - 1) == Some(turn.info.hostPort)
    ensures old(AnswersWell(config, d)) ==> turn.Running? && d.creates == old(d.creates) + 1
    ensures config.exposedPort > 0 ==> d.ports == old(d.ports) + 1
    ensures config.exposedPort > 0 && d.freePorts(old(d.ports)).None? ==> turn == Failed(NoFreePort)
    ensures |d.started| <= |old(d.started)| + 1
    ensures |d.started| > |old(d.started)| ==>
            FollowsStart(config, finalAttempt, d.startAnswers(|old(d.started)|), turn)
    ensures turn == Failed(StartRefused) ==> |d.started| > |old(d.started)|
  {
    var hostPort: Option<nat> := None;
    if config.exposedPort > 0 {
      hostPort := d.AllocateFreeHostPort();
      if hostPort.None? { return Failed(NoFreePort); }
    }
    ghost var before := d.created;
    var got := CreateOnce(config, d, hostPort, finalAttempt);
    if got.GiveUp? { return Failed(got.failure); }
    if got.Retry? { return Again; }
    assert d.created[..|d.created| - 1] == before;
    var answer := StartOrRemove(d, Container(got.id, hostPort));
    if answer.Started? {
      return Running(ContainerInfo(got.id, if hostPort.Some? then hostPort.value else 0));
    }
    return if answer.PortTaken? && hostPort.Some? && !finalAttempt then Again else Failed(StartRefused);
  }

  /** The image is present, or its first pull works, as the policy asks. */
  predicate ImageAtHand(config: Config, d: Daemon) {
    if config.policy.Always? then d.pullAnswers(0)
    else d.presence.Present? || (config.policy.IfNotPresent? && d.pullAnswers(0))
  }

  /**
   Every run of the loop ends by returning: within three attempts, six creates
   and sixteen pulls, with every container it created either returned or removed.
   */
  method CreateAndStart(config: Config, d: Daemon) returns (r: Result<ContainerInfo, Failure>)
    requires d.pulls == d.creates == d.ports == d.removedNames == 0
    requires d.created == [] && d.started == [] && d.removed == []
    modifies d
    ensures d.creates <= 6 && d.pulls <= 16 && d.ports <= 3 && d.removedNames <= 3
    ensures config.policy.Never? ==> d.pulls == 0 && (d.presence.Present? || d.creates == 0)
    ensures r.Ok? ==> OnlyReturnedIsLeft(d, r.value) && d.startAnswers(|d.started| - 1) == Started
    ensures r.Err? ==> AllRemoved(d)
    ensures r.Ok? && config.exposedPort == 0 ==> r.value.hostPort == 0 && d.ports == 0
    ensures r.Ok? && config.exposedPort > 0 ==> d.ports > 0 && d.freePorts(d.ports - 1) == Some(r.value.hostPort)
    // the first container that starts is the one returned
    ensures forall k :: 0 <= k < |d.started| - (if r.Ok? then 1 else 0) ==> !d.startAnswers(k).Started?
    // a taken port is given up on only after the last attempt
    ensures r == Err(StartRefused) ==>
            && d.started != []
            && (config.exposedPort > 0 && d.startAnswers(|d.started| - 1).PortTaken? ==>
              d.ports == MAX_PORT_RETRY_ATTEMPTS)
    // with the image at hand, a daemon that answers well is asked once
    ensures ImageAtHand(config, d) && old(AnswersWell(config, d)) ==> r.Ok? && d.creates == 1 && |d.started| == 1
  {
    var failure := EnsureImage(config, d);
    assert d.removed == Ids(d.created);
    if failure.Some? { return Err(failure.value); }
    var attempt := 1;
    while true
      invariant 1 <= attempt <= MAX_PORT_RETRY_ATTEMPTS
      invariant d.creates <= 2 * (attempt - 1) && d.pulls <= MAX_PULL_ATTEMPTS * attempt
      invariant d.ports <= attempt - 1 && d.removedNames <= attempt - 1
      invariant config.policy.Never? ==> d.pulls == 0 && d.presence.Present?
      invariant config.exposedPort == 0 ==> d.ports == 0
      invariant AllRemoved(d)
      invariant forall k :: 0 <= k < |d.started| ==> !d.startAnswers(k).Started?
      invariant config.exposedPort > 0 ==> d.ports == attempt - 1
      invariant attempt == 1 ==> d.creates == 0 && d.started == []
      invariant attempt > 1 ==> !old(AnswersWell(config, d))
      decreases MAX_PORT_RETRY_ATTEMPTS - attempt
    {
      var turn := TryOnce(config, d, attempt == MAX_PORT_RETRY_ATTEMPTS);
      if turn.Running? { return Ok(turn.info); }
      if turn.Failed? { return Err(turn.failure); }
      attempt := attempt + 1;
    }
  }
}
