/** Rotation of a runner's access token over a network that loses responses (backend/app/services/runners.py,
    runner/opspilot_runner/client.py). Tokens are numbered in the order the server draws them. */
module RunnerTokens {
  import opened Common

  datatype Settings = Settings(lease: nat, rotation: nat, ttl: nat, grace: nat)

  /** What the configuration demands (backend/app/core/config.py). */
  predicate Configured(cfg: Settings) {
    0 < cfg.rotation < cfg.ttl && 0 < cfg.grace < cfg.ttl
  }

  datatype Runner = Runner(
    current: Token,
    issued: Time,
    expires: Time,
    previous: Option<Token>,
    previousExpires: Time,
    drawn: nat,
    online: bool,
    disabled: bool,
    leaseExpires: Time,
    fencing: nat,
    lastHeartbeat: Option<nat>)

  datatype Kind = Current | Previous | Expired | Invalid

  /** `_verify_access_token`. */
  function Verify(r: Runner, provided: Token, now: Time): Kind {
    if provided == r.current then (if r.expires <= now then Expired else Current)
    else if r.previous == Some(provided) then (if r.previousExpires > now then Previous else Expired)
    else Invalid
  }

  predicate Accepts(r: Runner, provided: Token, now: Time) {
    Verify(r, provided, now).Current? || Verify(r, provided, now).Previous?
  }

  /** `_rotate_token_if_needed`. */
  predicate RotationDue(cfg: Settings, r: Runner, now: Time, recovering: bool) {
    recovering || now >= r.issued + cfg.rotation
  }

  function Rotated(cfg: Settings, r: Runner, provided: Token, now: Time): Runner {
    r.(previous := Some(provided), previousExpires := now + cfg.grace,
       current := r.drawn, drawn := r.drawn + 1, issued := now, expires := now + cfg.ttl)
  }

  datatype Answer = Denied | Answered(runner: Runner, fencing: nat, duplicate: bool, rotated: Option<Token>)

  function Heartbeat(cfg: Settings, r: Runner, provided: Token, id: nat, now: Time): Answer {
    var kind := Verify(r, provided, now);
    if kind.Expired? || kind.Invalid? || r.disabled then Denied
    else
      var due := RotationDue(cfg, r, now, kind.Previous?);
      var turned := if due then Rotated(cfg, r, provided, now) else r;
      var rotated := if due then Some(turned.current) else None;
      if r.lastHeartbeat == Some(id) then Answered(turned, r.fencing, true, rotated)
      else Answered(turned.(online := true, leaseExpires := now + cfg.lease, lastHeartbeat := Some(id),
                            fencing := r.fencing + 1), r.fencing + 1, false, rotated)
  }

  function Registered(cfg: Settings, now: Time): Runner {
    Runner(0, now, now + cfg.ttl, None, now, 1, true, false, now + cfg.lease, 1, None)
  }

  // ----- The server's record and the runner's store as objects -----------------------------------------

  class RunnerRecord {
    var row: Runner
    const cfg: Settings

    constructor (cfg: Settings, now: Time)
      ensures this.cfg == cfg && row == Registered(cfg, now)
    {
      this.cfg := cfg;
      row := Runner(0, now, now + cfg.ttl, None, now, 1, true, false, now + cfg.lease, 1, None);
    }

    method RotateIfNeeded(provided: Token, now: Time, recovering: bool) returns (rotated: Option<Token>)
      modifies this
      ensures rotated.Some? <==> RotationDue(cfg, old(row), now, recovering)
      ensures row == if rotated.Some? then Rotated(cfg, old(row), provided, now) else old(row)
      ensures rotated.Some? ==> rotated == Some(row.current)
    {
      if !recovering && now < row.issued + cfg.rotation { return None; }
      var token := row.drawn;
      row := row.(drawn := token + 1);
      row := row.(previous := Some(provided), previousExpires := now + cfg.grace);
      row := row.(current := token, issued := now, expires := now + cfg.ttl);
      return Some(token);
    }

    method Beat(provided: Token, id: nat, now: Time) returns (answer: Answer)
      modifies this
      ensures answer == Heartbeat(cfg, old(row), provided, id, now)
      ensures row == if answer.Answered? then answer.runner else old(row)
    {
      var kind := Verify(row, provided, now);
      if kind.Expired? || kind.Invalid? { return Denied; }
      if row.disabled { return Denied; }
      var last := row.lastHeartbeat;
      var rotated := RotateIfNeeded(provided, now, kind.Previous?);
      if last == Some(id) { return Answered(row, row.fencing, true, rotated); }
      if !row.online { row := row.(online := true); }
      row := row.(leaseExpires := now + cfg.lease, lastHeartbeat := Some(id), fencing := row.fencing + 1);
      return Answered(row, row.fencing, false, rotated);
    }
  }

  class RunnerClient {
    var stored: Token
    var fencing: nat

    constructor (token: Token, fencing: nat)
      ensures stored == token && this.fencing == fencing
    {
      stored, this.fencing := token, fencing;
    }

    /** `_heartbeat`: a rotated token is stored before it is used; a lost response leaves the store alone. */
    method Beat(server: RunnerRecord, id: nat, now: Time, delivered: bool) returns (answer: Answer)
      modifies this, server
      ensures answer == Heartbeat(server.cfg, old(server.row), old(stored), id, now)
      ensures server.row == if answer.Answered? then answer.runner else old(server.row)
      ensures stored == StoredAfter(old(stored), answer, delivered)
    {
      answer := server.Beat(stored, id, now);
      if delivered && answer.Answered? {
        fencing := answer.fencing;
        if answer.rotated.Some? { stored := answer.rotated.value; }
      }
    }
  }

  function StoredAfter(stored: Token, answer: Answer, delivered: bool): Token {
    if delivered && answer.Answered? && answer.rotated.Some? then answer.rotated.value else stored
  }

  // ----- What a heartbeat means -----------------------------------------------------------------------------

  /** The lease, the counter and the last heartbeat of an accepted heartbeat: a new one counts and renews the lease for
      one period, a repeated one is answered with the counter it got before. */
  predicate LeaseRenewed(cfg: Settings, r: Runner, r': Runner, id: nat, now: Time, fencing: nat, duplicate: bool) {
    && (duplicate <==> r.lastHeartbeat == Some(id)) && r'.fencing == fencing && r'.lastHeartbeat == Some(id)
    && (duplicate ==> fencing == r.fencing && r'.leaseExpires == r.leaseExpires && r'.online == r.online)
    && (!duplicate ==> fencing == r.fencing + 1 && r'.leaseExpires == now + cfg.lease && r'.online)
  }

  /** The tokens after it: a rotation replaces the current token by one never drawn before, and the presented one stays
      usable until the grace period ends; it happens exactly for the previous token or a token old enough. */
  predicate TokensRotated(cfg: Settings, r: Runner, r': Runner, provided: Token, now: Time, rotated: Option<Token>) {
    && (rotated.Some? <==> provided != r.current || r.issued + cfg.rotation <= now)
    && match rotated
       case None =>
         && r'.current == r.current && r'.issued == r.issued && r'.expires == r.expires
         && r'.previous == r.previous && r'.previousExpires == r.previousExpires && r'.drawn == r.drawn
       case Some(token) =>
         && token == r.drawn && r'.drawn == r.drawn + 1
         && r'.current == token && r'.issued == now && r'.expires == now + cfg.ttl
         && r'.previous == Some(provided) && r'.previousExpires == now + cfg.grace
  }

  /** The presented token is the current or the previous one and has not run out. */
  predicate Usable(r: Runner, provided: Token, now: Time) {
    if provided == r.current then now < r.expires else r.previous == Some(provided) && now < r.previousExpires
  }

  lemma HeartbeatMeans(cfg: Settings, r: Runner, provided: Token, id: nat, now: Time)
    ensures match Heartbeat(cfg, r, provided, id, now)
            case Denied => r.disabled || !Usable(r, provided, now)
            case Answered(r', fencing, duplicate, rotated) =>
              && !r.disabled && Usable(r, provided, now) && !r'.disabled
              && LeaseRenewed(cfg, r, r', id, now, fencing, duplicate)
              && TokensRotated(cfg, r, r', provided, now, rotated)
  {
  }

  // ----- Schedules ----------------------------------------------------------------------------------------

  /** A heartbeat that reached the server `gap` after the one before it, and whether its response arrived. */
  datatype Beat = Beat(id: nat, gap: nat, delivered: bool)

  /** Both ends after some heartbeats, and the time of the last one. */
  datatype Link = Link(server: Runner, stored: Token, last: Time)

  function After(cfg: Settings, link: Link, b: Beat): Link {
    var now := link.last + b.gap;
    var answer := Heartbeat(cfg, link.server, link.stored, b.id, now);
    Link(if answer.Answered? then answer.runner else link.server, StoredAfter(link.stored, answer, b.delivered), now)
  }

  function Through(cfg: Settings, start: Time, beats: seq<Beat>): Link {
    if beats == [] then Link(Registered(cfg, start), 0, start)
    else After(cfg, Through(cfg, start, beats[..|beats|-1]), beats[|beats|-1])
  }

  /** The stored token is the current one, or the previous one since the last heartbeat rotated it away; both
      live long enough. */
  predicate InTouch(cfg: Settings, link: Link) {
    var s := link.server;
    && s.current < s.drawn && (s.previous.Some? ==> s.previous.value < s.drawn) && !s.disabled
    && s.expires == s.issued + cfg.ttl
    && ((link.stored == s.current && link.last < s.issued + cfg.rotation)
        || (link.stored != s.current && s.previous == Some(link.stored) && s.previousExpires == link.last + cfg.grace))
  }

  lemma InTouchIsAccepted(cfg: Settings, link: Link, d: nat, t: Time)
    requires InTouch(cfg, link) && d < cfg.grace && cfg.rotation + d <= cfg.ttl && link.last <= t <= link.last + d
    ensures Accepts(link.server, link.stored, t)
  {
  }

  lemma StaysInTouch(cfg: Settings, link: Link, b: Beat, d: nat)
    requires Configured(cfg) && InTouch(cfg, link) && d < cfg.grace && cfg.rotation + d <= cfg.ttl && b.gap <= d
    ensures InTouch(cfg, After(cfg, link, b))
  {
    InTouchIsAccepted(cfg, link, d, link.last + b.gap);
  }

  lemma {:induction false} AlwaysInTouch(cfg: Settings, start: Time, beats: seq<Beat>, d: nat)
    requires Configured(cfg) && d < cfg.grace && cfg.rotation + d <= cfg.ttl
    requires forall k :: 0 <= k < |beats| ==> beats[k].gap <= d
    ensures InTouch(cfg, Through(cfg, start, beats))
  {
    if beats != [] {
      AlwaysInTouch(cfg, start, beats[..|beats|-1], d);
      StaysInTouch(cfg, Through(cfg, start, beats[..|beats|-1]), beats[|beats|-1], d);
    }
  }

  /** A schedule keeps the runner in: at every moment until `d` after its last heartbeat, the server accepts the
      token the runner has stored. */
  ghost predicate NeverLockedOut(cfg: Settings, start: Time, beats: seq<Beat>, d: nat) {
    forall t: Time {:trigger Accepts(Through(cfg, start, beats).server, Through(cfg, start, beats).stored, t)} ::
      Through(cfg, start, beats).last <= t <= Through(cfg, start, beats).last + d ==>
        Accepts(Through(cfg, start, beats).server, Through(cfg, start, beats).stored, t)
  }

  ghost predicate WithinGap(beats: seq<Beat>, d: nat) {
    forall k :: 0 <= k < |beats| ==> beats[k].gap <= d
  }

  // ----- When the margins are too small ---------------------------------------------------------------------

  /** n heartbeats, one time unit apart. */
  function EveryUnit(n: nat): seq<Beat> {
    if n == 0 then [] else EveryUnit(n - 1) + [Beat(n, 1, true)]
  }

  lemma {:induction false} EveryUnitGaps(n: nat, d: nat)
    requires 1 <= d
    ensures |EveryUnit(n)| == n && WithinGap(EveryUnit(n), d)
  {
    if n > 0 { EveryUnitGaps(n - 1, d); }
  }

  /** No token has changed since the registration. */
  predicate Unrotated(cfg: Settings, link: Link, start: Time) {
    && link.stored == 0
    && link.server.current == 0 && link.server.issued == start && link.server.expires == start + cfg.ttl
    && !link.server.disabled && link.server.previous.None? && link.server.drawn == 1
  }

  lemma OneUnitLater(cfg: Settings, link: Link, start: Time, id: nat)
    requires Configured(cfg) && Unrotated(cfg, link, start) && link.last + 1 < start + cfg.rotation
    ensures var after := After(cfg, link, Beat(id, 1, true));
            Unrotated(cfg, after, start) && after.last == link.last + 1
  {
  }

  /** Before the rotation is due, heartbeats change no token. */
  lemma {:induction false} NothingRotates(cfg: Settings, start: Time, n: nat)
    requires Configured(cfg) && n < cfg.rotation
    ensures var link := Through(cfg, start, EveryUnit(n));
            Unrotated(cfg, link, start) && link.last == start + n
  {
    if n > 0 {
      hide After, Unrotated;
      NothingRotates(cfg, start, n - 1);
      var beats := EveryUnit(n);
      assert beats[..|beats|-1] == EveryUnit(n - 1) && beats[|beats|-1] == Beat(n, 1, true);
      OneUnitLater(cfg, Through(cfg, start, EveryUnit(n - 1)), start, n);
    }
  }

  /** A token that is almost due for rotation expires before the next heartbeat. */
  lemma OldTokenExpires(cfg: Settings, start: Time, d: nat)
    requires Configured(cfg) && cfg.rotation + d > cfg.ttl
    ensures exists beats :: WithinGap(beats, d) && !NeverLockedOut(cfg, start, beats, d)
  {
    var beats := EveryUnit(cfg.rotation - 1);
    EveryUnitGaps(cfg.rotation - 1, d);
    NothingRotates(cfg, start, cfg.rotation - 1);
    var link := Through(cfg, start, beats);
    assert !Accepts(link.server, link.stored, link.last + d);
  }

  /** The heartbeat that first rotates, with its response lost. */
  function LostRotation(cfg: Settings): seq<Beat>
    requires cfg.rotation > 0
  {
    EveryUnit(cfg.rotation - 1) + [Beat(cfg.rotation, 1, false)]
  }

  lemma LostBeat(cfg: Settings, link: Link, start: Time)
    requires Configured(cfg) && Unrotated(cfg, link, start) && link.last + 1 == start + cfg.rotation
    ensures var after := After(cfg, link, Beat(cfg.rotation, 1, false));
            && after.stored == 0 && after.server.current == 1 && after.server.previous == Some(0)
            && after.server.previousExpires == after.last + cfg.grace
  {
  }

  lemma LostRotationLeaves(cfg: Settings, start: Time)
    requires Configured(cfg)
    ensures var link := Through(cfg, start, LostRotation(cfg));
            && link.stored == 0 && link.server.current == 1 && link.server.previous == Some(0)
            && link.server.previousExpires == link.last + cfg.grace
  {
    hide EveryUnit, After, Unrotated;
    NothingRotates(cfg, start, cfg.rotation - 1);
    assert LostRotation(cfg)[..|LostRotation(cfg)|-1] == EveryUnit(cfg.rotation - 1);
    assert LostRotation(cfg)[|LostRotation(cfg)|-1] == Beat(cfg.rotation, 1, false);
    LostBeat(cfg, Through(cfg, start, EveryUnit(cfg.rotation - 1)), start);
  }

  /** The previous token's grace ends before the next heartbeat after a lost rotation. */
  lemma GraceEnds(cfg: Settings, start: Time, d: nat)
    requires Configured(cfg) && cfg.grace <= d
    ensures exists beats :: WithinGap(beats, d) && !NeverLockedOut(cfg, start, beats, d)
  {
    hide Through;
    var beats := LostRotation(cfg);
    EveryUnitGaps(cfg.rotation - 1, d);
    LostRotationLeaves(cfg, start);
    assert WithinGap(beats, d);
    var link := Through(cfg, start, beats);
    assert !Accepts(link.server, link.stored, link.last + d);
  }

  /** Token rotation never locks out a runner whose heartbeats reach the server at most `d` apart, whatever
      responses are lost, if and only if the gap stays within the grace period and the rotation period plus
      the gap within the token's life. */
  lemma RotationKeepsRunnersIn(cfg: Settings, start: Time, d: nat)
    requires Configured(cfg)
    ensures (forall beats :: WithinGap(beats, d) ==> NeverLockedOut(cfg, start, beats, d))
            <==> d < cfg.grace && cfg.rotation + d <= cfg.ttl
  {
    if d < cfg.grace && cfg.rotation + d <= cfg.ttl {
      forall beats | WithinGap(beats, d) ensures NeverLockedOut(cfg, start, beats, d) {
        AlwaysInTouch(cfg, start, beats, d);
        var link := Through(cfg, start, beats);
        forall t: Time | link.last <= t <= link.last + d ensures Accepts(link.server, link.stored, t) {
          InTouchIsAccepted(cfg, link, d, t);
        }
      }
    } else if cfg.grace <= d {
      GraceEnds(cfg, start, d);
    } else {
      OldTokenExpires(cfg, start, d);
    }
  }

  // ----- Where the promise ends -------------------------------------------------------------------------------

  /** The server's row after a heartbeat, whether or not anybody reads the response. */
  function RowAfter(cfg: Settings, r: Runner, provided: Token, id: nat, now: Time): Runner {
    var answer := Heartbeat(cfg, r, provided, id, now);
    if answer.Answered? then answer.runner else r
  }

  /** Every row of the server has a current token that was drawn before. */
  lemma CurrentIsDrawn(cfg: Settings, r: Runner, provided: Token, id: nat, start: Time, now: Time)
    ensures Registered(cfg, start).current < Registered(cfg, start).drawn
    ensures r.current < r.drawn ==>
              RowAfter(cfg, r, provided, id, now).current < RowAfter(cfg, r, provided, id, now).drawn
  {
  }

  /** A heartbeat that arrives late with another token than the current one, its response unread, leaves the current
      token usable if and only if the server does not accept the late token at that moment or the runner is
      disabled. Otherwise the server takes it for a runner that missed a rotation and replaces the current token. */
  lemma LateHeartbeatLocksOut(cfg: Settings, r: Runner, late: Token, id: nat, now: Time)
    requires r.current < r.drawn && now < r.expires && late != r.current
    ensures Accepts(RowAfter(cfg, r, late, id, now), r.current, now) <==> !Accepts(r, late, now) || r.disabled
  {
    var after := RowAfter(cfg, r, late, id, now);
    if Accepts(r, late, now) && !r.disabled {
      assert Verify(r, late, now).Previous?;
      assert after.current == r.drawn && after.previous == Some(late);
    }
  }

  /** Reached from a registration: a heartbeat that the network delays until after the rotation it raced with, whose
      response the runner has read, makes the token the runner has just stored invalid at once. */
  lemma DelayedHeartbeatLocksOut(cfg: Settings, now: Time)
    requires Configured(cfg)
    ensures var due := now + cfg.rotation;
            var first := Heartbeat(cfg, Registered(cfg, now), 0, 1, due);
            && first.Answered? && first.rotated == Some(1) && Accepts(first.runner, 1, due)
            && var second := Heartbeat(cfg, first.runner, 0, 0, due);
               second.Answered? && second.rotated == Some(2) && Verify(second.runner, 1, due) == Invalid
  {
  }
}
