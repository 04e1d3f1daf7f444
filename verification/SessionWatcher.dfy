/**
 The idle-session watcher: a poll that prompts an inactive user shortly before the session expires,
 and the prompt's countdown to an automatic logout. All times are in milliseconds.
 */
module SessionWatcher {
  import opened Wrappers

  const CHECK_SESSION_INTERVAL := 5000
  const WARN_BEFORE_LOGOUT := 120000
  const USER_IDLE_PERIOD := 300000
  const AUTO_LOGOUT_DELTA := 5000
  const UPDATE_INTERVAL := 500

  // ---------------------------------------------------------------- the countdown of one prompt

  /** A prompt: when it was opened, how often its timer has ticked, and whether the timer still runs. */
  datatype Prompt = Prompt(expiry: int, openedAt: int, countDown: int, ticks: nat, active: bool)

  function Opened(expiry: int, now: int): Prompt {
    Prompt(expiry, now, expiry - now, 0, true)
  }

  function NextTick(p: Prompt): int {
    p.openedAt + UPDATE_INTERVAL * (p.ticks + 1)
  }

  /** One tick of the timer, and whether it logs the user out. */
  function Tick(p: Prompt): (Prompt, bool) {
    if p.countDown <= 0 then (p.(ticks := p.ticks + 1, active := false), true)
    else (p.(ticks := p.ticks + 1, countDown := p.countDown - UPDATE_INTERVAL), false)
  }

  class LogOutDialog {
    const expiryDate: int
    var countDown: int
    var countdownTotal: int
    var autoLogout: bool
    ghost var openedAt: int
    ghost var ticks: nat

    ghost function Current(): Prompt
      reads this
    {
      Prompt(expiryDate, openedAt, countDown, ticks, autoLogout)
    }

    constructor (expiryDate: int, now: int)
      ensures Current() == Opened(expiryDate, now) && countdownTotal == expiryDate - now
    {
      this.expiryDate := expiryDate;
      countDown, countdownTotal, autoLogout := expiryDate - now, expiryDate - now, true;
      openedAt, ticks := now, 0;
    }

    method OnTick() returns (logout: bool)
      requires autoLogout
      modifies this
      ensures (Current(), logout) == Tick(old(Current())) && countdownTotal == old(countdownTotal)
    {
      ticks := ticks + 1;
      if countDown <= 0 {
        autoLogout := false;
        logout := true;
      } else {
        countDown := countDown - UPDATE_INTERVAL;
        logout := false;
      }
    }
  }

  /** The number of ticks that count down before the one that logs out. */
  function Steps(total: int): nat {
    if total <= 0 then 0 else (total + UPDATE_INTERVAL - 1) / UPDATE_INTERVAL
  }

  function LogoutTime(p: Prompt): int {
    p.openedAt + UPDATE_INTERVAL * (Steps(p.expiry - p.openedAt) + 1)
  }

  predicate Counting(p: Prompt) {
    var total := p.expiry - p.openedAt;
    if p.active then p.ticks <= Steps(total) && p.countDown == total - UPDATE_INTERVAL * p.ticks
    else p.ticks == Steps(total) + 1 && p.countDown == total - UPDATE_INTERVAL * Steps(total)
  }

  /** A prompt that counts down logs out at its logout time, and only then. */
  lemma TickCounts(p: Prompt)
    requires Counting(p) && p.active
    ensures Counting(Tick(p).0)
    ensures Tick(p).1 <==> NextTick(p) == LogoutTime(p)
    ensures Tick(p).1 <==> !Tick(p).0.active
    ensures NextTick(p) <= LogoutTime(p)
  {
  }

  /**
   The logout comes more than four seconds before the session really ends, exactly if the prompt was
   opened less than half a second after the safe expiry date.
   */
  lemma LogoutComesInTime(expiry: int, now: int)
    ensures expiry + AUTO_LOGOUT_DELTA - LogoutTime(Opened(expiry, now)) > 4000 <==> expiry - now > -UPDATE_INTERVAL
    ensures expiry > now ==> expiry < LogoutTime(Opened(expiry, now)) + 1 <= expiry + 2 * UPDATE_INTERVAL
  {
    var total := expiry - now;
    if total > 0 {
      assert UPDATE_INTERVAL * Steps(total) >= total;
      assert UPDATE_INTERVAL * Steps(total) < total + UPDATE_INTERVAL;
    }
  }

  // ---------------------------------------------------------------- the watcher

  datatype Checker = NotYet | Live | Closed

  datatype Message = VerifySession(at: int) | Logout(at: int)

  /** `session` is the expiry date of the session data, `poll` the next tick of the open poll. */
  datatype State = State(session: Option<int>, lastInteraction: int, poll: Option<int>, checker: Checker, shown: bool,
                         destroying: bool, prompts: seq<Prompt>, clock: int, sent: seq<Message>)

  datatype Event =
    | Auth(valid: bool, expires: Option<int>, now: int)
    | Interaction(now: int)
    | PollTick(now: int)
    | PromptTick(prompt: nat, now: int)
    | PromptClosed(prompt: nat, verify: bool, now: int)
    | Destroy(now: int)

  function Start(now: int): State {
    State(None, now, None, NotYet, false, false, [], now, [])
  }

  /** Ideal timers: nothing happens before the clock or after a timer that is due. */
  predicate Timely(s: State, now: int) {
    && now >= s.clock
    && (s.poll.Some? ==> now <= s.poll.value)
    && forall i | 0 <= i < |s.prompts| && s.prompts[i].active :: now <= NextTick(s.prompts[i])
  }

  predicate Legal(s: State, ev: Event) {
    && Timely(s, ev.now)
    && match ev
       case Auth(valid, expires, _) => !s.destroying && (valid ==> expires.Some?)
       case PollTick(now) => s.poll == Some(now)
       case PromptTick(i, now) => i < |s.prompts| && s.prompts[i].active && NextTick(s.prompts[i]) == now
       case PromptClosed(i, _, _) => i < |s.prompts|
       case _ => true
  }

  function OnAuth(s: State, valid: bool, expires: Option<int>, now: int): State {
    var s1 := s.(session := expires, clock := now);
    if valid then
      s1.(poll := if s.poll.None? then Some(now + CHECK_SESSION_INTERVAL) else s.poll,
          checker := if s.checker == NotYet then Live else s.checker)
    else
      s1.(poll := None, checker := if s.checker == Live then Closed else s.checker)
  }

  /** The session check of one tick of the poll; without session data it throws, which ends the poll. */
  function OnPollTick(s: State, now: int): State {
    var s1 := s.(poll := Some(now + CHECK_SESSION_INTERVAL), clock := now);
    if s.shown || s.destroying then s1
    else if s.session.None? then s1.(poll := None)
    else
      var safeExpire := s.session.value - AUTO_LOGOUT_DELTA;
      if safeExpire - now >= WARN_BEFORE_LOGOUT then s1
      else if now - s.lastInteraction < USER_IDLE_PERIOD then s1.(sent := s.sent + [VerifySession(now)])
      else s1.(shown := true, prompts := s.prompts + [Opened(safeExpire, now)], poll := None)
  }

  function OnPromptTick(s: State, i: nat, now: int): State
    requires i < |s.prompts|
  {
    var (p, logout) := Tick(s.prompts[i]);
    s.(prompts := s.prompts[i := p], clock := now, sent := if logout then s.sent + [Logout(now)] else s.sent)
  }

  function OnPromptClosed(s: State, i: nat, verify: bool, now: int): State
    requires i < |s.prompts|
  {
    var s1 := s.(prompts := s.prompts[..i] + s.prompts[i + 1..], shown := false, clock := now);
    if verify then s1.(sent := s.sent + [VerifySession(now)], poll := Some(now + CHECK_SESSION_INTERVAL)) else s1
  }

  function Apply(s: State, ev: Event): State
    requires Legal(s, ev)
  {
    match ev
    case Auth(valid, expires, now) => OnAuth(s, valid, expires, now)
    case Interaction(now) => s.(lastInteraction := if s.checker == Live then now else s.lastInteraction, clock := now)
    case PollTick(now) => OnPollTick(s, now)
    case PromptTick(i, now) => OnPromptTick(s, i, now)
    case PromptClosed(i, verify, now) => OnPromptClosed(s, i, verify, now)
    case Destroy(now) =>
      s.(destroying := true, poll := None, checker := if s.checker == Live then Closed else s.checker, clock := now)
  }

  ghost predicate LegalRun(s: State, evs: seq<Event>)
    decreases |evs|
  {
    evs != [] ==> Legal(s, evs[0]) && LegalRun(Apply(s, evs[0]), evs[1..])
  }

  function Run(s: State, evs: seq<Event>): State
    requires LegalRun(s, evs)
    decreases |evs|
  {
    if evs == [] then s else Run(Apply(s, evs[0]), evs[1..])
  }

  class LoggedInService {
    var sessionExpiresOn: Option<int>
    var lastUserInteraction: int
    var sessionChecker: Option<int>
    var userInteractionChecker: Checker
    var activityPromptShown: bool
    var destroying: bool
    ghost var prompts: seq<Prompt>
    ghost var clock: int
    ghost var sent: seq<Message>

    ghost function Current(): State
      reads this
    {
      State(sessionExpiresOn, lastUserInteraction, sessionChecker, userInteractionChecker, activityPromptShown,
            destroying,
            prompts, clock, sent)
    }

    constructor (now: int)
      ensures Current() == Start(now)
    {
      sessionExpiresOn, lastUserInteraction, sessionChecker := None, now, None;
      userInteractionChecker, activityPromptShown, destroying := NotYet, false, false;
      prompts, clock, sent := [], now, [];
    }

    method OnAuthState(valid: bool, expires: Option<int>, now: int)
      requires Legal(Current(), Auth(valid, expires, now))
      modifies this
      ensures Current() == Apply(old(Current()), Auth(valid, expires, now))
    {
      clock := now;
      sessionExpiresOn := expires;
      if valid {
        if sessionChecker.None? {
          OpenSessionCheckerPoll(now);
        }
        if userInteractionChecker == NotYet {
          userInteractionChecker := Live;
        }
      } else {
        CloseSessionCheckerPoll();
        if userInteractionChecker == Live {
          userInteractionChecker := Closed;
        }
      }
    }

    /** The listener is set up once: after it was closed by an invalid session it stays closed. */
    method OnInteraction(now: int)
      requires Legal(Current(), Interaction(now))
      modifies this
      ensures Current() == Apply(old(Current()), Interaction(now))
    {
      clock := now;
      if userInteractionChecker == Live {
        lastUserInteraction := now;
      }
    }

    method OpenSessionCheckerPoll(now: int)
      modifies this`sessionChecker
      ensures sessionChecker == Some(now + CHECK_SESSION_INTERVAL)
    {
      CloseSessionCheckerPoll();
      sessionChecker := Some(now + CHECK_SESSION_INTERVAL);
    }

    method CloseSessionCheckerPoll()
      modifies this`sessionChecker
      ensures sessionChecker == None
    {
      sessionChecker := None;
    }

    /** One tick of the poll: the next one is set up, then the session is checked. */
    method CheckSession(now: int)
      requires Legal(Current(), PollTick(now))
      modifies this
      ensures Current() == Apply(old(Current()), PollTick(now))
    {
      clock := now;
      sessionChecker := Some(now + CHECK_SESSION_INTERVAL);
      if activityPromptShown || destroying {
        return;
      }
      if sessionExpiresOn.None? {
        sessionChecker := None;
        return;
      }
      var safeExpire := sessionExpiresOn.value - AUTO_LOGOUT_DELTA;
      var delta := safeExpire - now;
      var aboutToExpire := delta < WARN_BEFORE_LOGOUT;
      if aboutToExpire {
        var userIsActive := now - lastUserInteraction < USER_IDLE_PERIOD;
        if userIsActive {
          sent := sent + [VerifySession(now)];
        } else {
          PromptInactiveUser(safeExpire, now);
          CloseSessionCheckerPoll();
        }
      }
    }

    method PromptInactiveUser(expiryDate: int, now: int)
      modifies this`activityPromptShown, this`prompts
      ensures activityPromptShown && prompts == old(prompts) + [Opened(expiryDate, now)]
    {
      activityPromptShown := true;
      var dialog := new LogOutDialog(expiryDate, now);
      prompts := prompts + [dialog.Current()];
    }

    method AfterClosed(ghost prompt: nat, verify: bool, now: int)
      requires Legal(Current(), PromptClosed(prompt, verify, now))
      modifies this
      ensures Current() == Apply(old(Current()), PromptClosed(prompt, verify, now))
    {
      clock := now;
      prompts := prompts[..prompt] + prompts[prompt + 1..];
      if verify {
        sent := sent + [VerifySession(now)];
        OpenSessionCheckerPoll(now);
      }
      activityPromptShown := false;
    }

    method Destroy(now: int)
      requires Legal(Current(), Event.Destroy(now))
      modifies this
      ensures Current() == Apply(old(Current()), Event.Destroy(now))
    {
      clock := now;
      destroying := true;
      CloseSessionCheckerPoll();
      if userInteractionChecker == Live {
        userInteractionChecker := Closed;
      }
    }
  }

  // ---------------------------------------------------------------- at most one prompt

  ghost predicate OnePrompt(s: State) {
    && |s.prompts| <= 1 && (s.shown <==> s.prompts != [])
    && forall i | 0 <= i < |s.prompts| :: Counting(s.prompts[i])
  }

  lemma StepKeepsOnePrompt(s: State, ev: Event)
    requires OnePrompt(s) && Legal(s, ev)
    ensures OnePrompt(Apply(s, ev))
  {
    if ev.PromptTick? {
      TickCounts(s.prompts[ev.prompt]);
    }
  }

  /** In every run at most one prompt is open, and every prompt counts down by the clock. */
  lemma {:induction false} RunKeepsOnePrompt(s: State, evs: seq<Event>)
    requires OnePrompt(s) && LegalRun(s, evs)
    ensures OnePrompt(Run(s, evs))
    decreases |evs|
  {
    if evs != [] {
      StepKeepsOnePrompt(s, evs[0]);
      RunKeepsOnePrompt(Apply(s, evs[0]), evs[1..]);
    }
  }

  /** What the last event that opens or closes the poll did to it. */
  predicate Reopened(open: bool, evs: seq<Event>) {
    if evs == [] then open
    else
      match evs[|evs| - 1]
      case Auth(valid, _, _) => valid
      case Destroy(_) => false
      case _ => Reopened(open, evs[..|evs| - 1])
  }

  lemma {:induction false} ReopenedFirst(open: bool, evs: seq<Event>)
    requires evs != []
    ensures Reopened(open, evs) == Reopened(Reopened(open, [evs[0]]), evs[1..])
    decreases |evs|
  {
    if |evs| > 1 {
      assert evs[1..][..|evs| - 2] == evs[..|evs| - 1][1..];
      ReopenedFirst(open, evs[..|evs| - 1]);
    } else {
      assert evs == [evs[0]];
    }
  }

  /**
   While a prompt is open the poll is closed, unless an authentication state that reports a valid
   session arrived meanwhile: exactly then it is open.
   */
  lemma {:induction false} PollWhilePrompting(s: State, evs: seq<Event>)
    requires OnePrompt(s) && s.prompts != [] && LegalRun(s, evs)
    requires forall ev <- evs :: !ev.PromptClosed?
    ensures Run(s, evs).prompts != []
    ensures Run(s, evs).poll.Some? <==> Reopened(s.poll.Some?, evs)
    decreases |evs|
  {
    if evs != [] {
      assert evs[0] in evs;
      StepKeepsOnePrompt(s, evs[0]);
      PollWhilePrompting(Apply(s, evs[0]), evs[1..]);
      ReopenedFirst(s.poll.Some?, evs);
      assert [evs[0]][..0] == [];
    }
  }

  // ---------------------------------------------------------------- who is prompted

  /** Less than two minutes are left until five seconds before the session ends. */
  predicate AboutToExpire(s: State, now: int) {
    s.session.Some? && s.session.value - 5000 - now < 120000
  }

  /** The last interaction is less than five minutes ago. */
  predicate IsActive(s: State, now: int) {
    now - s.lastInteraction < 300000
  }

  /**
   A check prompts exactly an idle user whose session is about to expire, unless a prompt is shown or the
   service is being destroyed, and the poll then ends. For an active user it verifies the session and the
   poll goes on. In all other cases it does nothing, and only missing session data end the poll.
   */
  lemma CheckPromptsIdleUser(s: State, now: int)
    requires Legal(s, PollTick(now))
    ensures var t, checks := Apply(s, PollTick(now)), !s.shown && !s.destroying;
      && (t.prompts != s.prompts <==> checks && AboutToExpire(s, now) && !IsActive(s, now))
      && (t.prompts != s.prompts ==> t.prompts == s.prompts + [Opened(s.session.value - 5000, now)])
      && (t.shown <==> s.shown || t.prompts != s.prompts)
      && (t.sent == if checks && AboutToExpire(s, now) && IsActive(s, now) then s.sent + [VerifySession(now)]
          else s.sent)
      && (t.poll == if t.prompts != s.prompts || (checks && s.session.None?) then None else Some(now + 5000))
      && t.session == s.session && t.lastInteraction == s.lastInteraction && t.checker == s.checker
      && t.destroying == s.destroying && t.clock == now
  {
    assert |s.prompts| != |s.prompts| + 1;
  }

  /** At every check of the run the user is active. */
  ghost predicate AlwaysActive(s: State, evs: seq<Event>)
    requires LegalRun(s, evs)
    decreases |evs|
  {
    evs != [] ==> (evs[0].PollTick? ==> IsActive(s, evs[0].now)) && AlwaysActive(Apply(s, evs[0]), evs[1..])
  }

  /** No run in which the user is active at every check opens a prompt or logs the user out. */
  lemma {:induction false} ActiveUserIsNotPrompted(s: State, evs: seq<Event>)
    requires s.prompts == [] && LegalRun(s, evs) && AlwaysActive(s, evs)
    ensures Run(s, evs).prompts == [] && s.sent <= Run(s, evs).sent
    ensures forall i | |s.sent| <= i < |Run(s, evs).sent| :: Run(s, evs).sent[i].VerifySession?
    decreases |evs|
  {
    if evs != [] {
      ActiveUserIsNotPrompted(Apply(s, evs[0]), evs[1..]);
    }
  }

  /** Nothing in the run closes the listener for interactions. */
  ghost predicate StaysOpen(evs: seq<Event>) {
    forall ev <- evs :: !ev.Destroy? && (ev.Auth? ==> ev.valid)
  }

  /** When the user last did something, by the events themselves. */
  function LastInteraction(start: int, evs: seq<Event>): int {
    if evs == [] then start
    else if evs[|evs| - 1].Interaction? then evs[|evs| - 1].now
    else LastInteraction(start, evs[..|evs| - 1])
  }

  lemma {:induction false} LastInteractionFirst(start: int, evs: seq<Event>)
    requires evs != []
    ensures LastInteraction(start, evs) == LastInteraction(LastInteraction(start, [evs[0]]), evs[1..])
    decreases |evs|
  {
    if |evs| > 1 {
      assert evs[1..][..|evs| - 2] == evs[..|evs| - 1][1..];
      LastInteractionFirst(start, evs[..|evs| - 1]);
    } else {
      assert evs == [evs[0]];
    }
  }

  /** As long as the listener is open, what the watcher remembers is the last interaction there was. */
  lemma {:induction false} InteractionsAreRemembered(s: State, evs: seq<Event>)
    requires s.checker == Live && LegalRun(s, evs) && StaysOpen(evs)
    ensures Run(s, evs).checker == Live && Run(s, evs).lastInteraction == LastInteraction(s.lastInteraction, evs)
    decreases |evs|
  {
    if evs != [] {
      assert evs[0] in evs;
      InteractionsAreRemembered(Apply(s, evs[0]), evs[1..]);
      LastInteractionFirst(s.lastInteraction, evs);
      assert [evs[0]][..0] == [];
    }
  }

  /** The watcher starts with nothing shown, nothing sent and nothing open. */
  lemma StartsIdle(now: int)
    ensures var s := Start(now);
      && OnePrompt(s) && s.prompts == [] && s.sent == [] && s.poll.None? && s.session.None? && !s.destroying
      && s.checker == NotYet && s.lastInteraction == now && s.clock == now
  {
  }

  /** An authentication state replaces the session data; a valid one has the poll open, any other closed. */
  lemma AuthOpensOrClosesPoll(s: State, valid: bool, expires: Option<int>, now: int)
    requires Legal(s, Auth(valid, expires, now))
    ensures var t := Apply(s, Auth(valid, expires, now));
      && t.session == expires && (t.poll.Some? <==> valid)
      && (valid && s.poll.Some? ==> t.poll == s.poll) && (valid && s.poll.None? ==> t.poll == Some(now + 5000))
      && (!valid ==> t.checker != Live)
      && t.prompts == s.prompts && t.shown == s.shown && t.sent == s.sent && t.lastInteraction == s.lastInteraction
  {
  }

  /**
   A prompt that is closed is gone and may be shown again; one that was confirmed also has the session
   verified and the next check five seconds later, and one that was not leaves the poll as it is.
   */
  lemma ClosingPrompt(s: State, i: nat, verify: bool, now: int)
    requires Legal(s, PromptClosed(i, verify, now))
    ensures var t := Apply(s, PromptClosed(i, verify, now));
      && |t.prompts| == |s.prompts| - 1 && !t.shown
      && (forall k | 0 <= k < i :: t.prompts[k] == s.prompts[k])
      && (forall k | i < k < |s.prompts| :: t.prompts[k - 1] == s.prompts[k])
      && (if verify then t.sent == s.sent + [VerifySession(now)] && t.poll == Some(now + 5000)
          else t.sent == s.sent && t.poll == s.poll)
      && t.session == s.session && t.checker == s.checker && t.destroying == s.destroying
  {
  }

  /** A tick of a prompt's timer changes that prompt alone, and logs out exactly if it has counted down. */
  lemma PromptTicks(s: State, i: nat, now: int)
    requires Legal(s, PromptTick(i, now))
    ensures var t, p := Apply(s, PromptTick(i, now)), s.prompts[i];
      && |t.prompts| == |s.prompts| && (forall k | 0 <= k < |s.prompts| && k != i :: t.prompts[k] == s.prompts[k])
      && (if p.countDown <= 0 then t.sent == s.sent + [Logout(now)] && !t.prompts[i].active
          else t.sent == s.sent && t.prompts[i].active && t.prompts[i].countDown == p.countDown - 500)
      && t.poll == s.poll && t.shown == s.shown && t.session == s.session
  {
  }

  /** Destroying the service closes the poll and the listener and leaves an open prompt alone. */
  lemma DestroyStopsWatching(s: State, now: int)
    requires Legal(s, Destroy(now))
    ensures var t := Apply(s, Destroy(now));
      && t.destroying && t.poll.None? && t.checker != Live
      && t.prompts == s.prompts && t.shown == s.shown && t.sent == s.sent && t.session == s.session
  {
  }

  /** Every event moves the clock to its own time, and only a timer that is due can come before it. */
  lemma ClockFollowsEvents(s: State, ev: Event)
    requires Legal(s, ev)
    ensures Apply(s, ev).clock == ev.now >= s.clock
    ensures s.poll.Some? ==> ev.now <= s.poll.value
    ensures forall p <- s.prompts :: p.active ==> ev.now <= NextTick(p)
    ensures s.destroying ==> !ev.Auth?
  {
  }

  /** Interactions and destruction can come at any time before the next timer. */
  lemma AlwaysPossible(s: State, now: int)
    requires now >= s.clock && (s.poll.Some? ==> now <= s.poll.value)
    requires forall i | 0 <= i < |s.prompts| && s.prompts[i].active :: now <= NextTick(s.prompts[i])
    ensures Legal(s, Interaction(now)) && Legal(s, Destroy(now))
    ensures forall valid, expires: Option<int> ::
        !s.destroying && (valid ==> expires.Some?) ==> Legal(s, Auth(valid, expires, now))
    ensures forall i: nat, verify :: i < |s.prompts| ==> Legal(s, PromptClosed(i, verify, now))
  {
  }

  /** A valid session opens the listener the first time, and closing it is for good. */
  lemma ListenerOpensOnce(s: State, ev: Event)
    requires Legal(s, ev)
    ensures Apply(s, ev).checker == Live <==>
      if s.checker == Live then !ev.Destroy? && !(ev.Auth? && !ev.valid)
      else s.checker == NotYet && ev.Auth? && ev.valid
    ensures s.checker == Closed ==> Apply(s, ev).checker == Closed
    ensures s.checker == NotYet && !(ev.Auth? && ev.valid) ==> Apply(s, ev).checker == NotYet
    ensures ev.Interaction? && s.checker != Live ==> Apply(s, ev).lastInteraction == s.lastInteraction
  {
  }

  // ---------------------------------------------------------------- time left when prompted

  /**
   A prompt counts from what is left of the session it was opened for. Unless an authentication state
   reported an invalid session since the last check, that is what was left then, less one interval and
   plus what new session data added: at least 115 seconds more than they added, if the last check was
   not yet in the warning window.
   */
  lemma PromptLeavesTime(s: State, now: int, between: seq<Event>, next: int)
    requires Legal(s, PollTick(now)) && Apply(s, PollTick(now)).prompts == []
    requires LegalRun(Apply(s, PollTick(now)), between) && forall ev <- between :: !ev.PollTick?
    requires Legal(Run(Apply(s, PollTick(now)), between), PollTick(next))
    requires Apply(Run(Apply(s, PollTick(now)), between), PollTick(next)).prompts != []
    ensures var s2 := Run(Apply(s, PollTick(now)), between);
      var prompts := Apply(s2, PollTick(next)).prompts;
      && |prompts| == 1 && s2.session.Some? && next >= now + CHECK_SESSION_INTERVAL
      && prompts[0] == Opened(s2.session.value - AUTO_LOGOUT_DELTA, next) && prompts[0].countDown < WARN_BEFORE_LOGOUT
      && (s.session.Some? && NoneInvalid(between) ==>
            var left, added := s.session.value - AUTO_LOGOUT_DELTA - now, s2.session.value - s.session.value;
            && prompts[0].countDown == left + added - CHECK_SESSION_INTERVAL
            && (left >= WARN_BEFORE_LOGOUT
                ==> prompts[0].countDown >= WARN_BEFORE_LOGOUT - CHECK_SESSION_INTERVAL + added))
  {
    BetweenTicks(Apply(s, PollTick(now)), between, now + CHECK_SESSION_INTERVAL);
  }

  ghost predicate NoneInvalid(evs: seq<Event>) {
    forall ev <- evs :: ev.Auth? ==> ev.valid
  }

  /** Between two ticks the poll keeps its next tick, as long as it is not closed, and no prompt opens. */
  lemma {:induction false} BetweenTicks(s: State, evs: seq<Event>, next: int)
    requires LegalRun(s, evs) && (forall ev <- evs :: !ev.PollTick?) && s.prompts == []
    requires s.clock + CHECK_SESSION_INTERVAL >= next && (s.poll.Some? ==> s.poll.value >= next)
    ensures var t := Run(s, evs);
      && t.prompts == [] && (t.poll.Some? ==> t.poll.value >= next)
      && (s.destroying ==> t.destroying)
      && (NoneInvalid(evs) && s.poll.Some? && !t.destroying ==> t.poll == s.poll)
    decreases |evs|
  {
    if evs != [] {
      assert evs[0] in evs;
      BetweenTicks(Apply(s, evs[0]), evs[1..], next);
    }
  }

  // ---------------------------------------------------------------- an idle user

  ghost predicate OnlyTimers(evs: seq<Event>) {
    forall ev <- evs :: ev.PollTick? || ev.PromptTick?
  }

  ghost predicate NoTimerLeft(s: State) {
    && (forall now :: !Legal(s, PollTick(now)))
    && forall i, now :: !Legal(s, PromptTick(i, now))
  }

  /** Nobody has used the page for the idle period, and the next check comes before it is too late. */
  predicate IdleBeforeExpiry(s: State, expires: int) {
    && s.session == Some(expires) && s.prompts == [] && !s.shown && !s.destroying
    && s.poll.Some? && s.clock <= s.poll.value && s.poll.value - s.lastInteraction >= USER_IDLE_PERIOD
    && expires - AUTO_LOGOUT_DELTA - s.poll.value > -UPDATE_INTERVAL
  }

  /** The one prompt for the session counts down, or has logged out. */
  ghost predicate Prompted(s: State, expires: int, before: seq<Message>) {
    && |s.prompts| == 1 && s.poll.None?
    && var p := s.prompts[0];
       Counting(p) && p.expiry == expires - AUTO_LOGOUT_DELTA && p.expiry - p.openedAt > -UPDATE_INTERVAL
       && p.expiry - p.openedAt < WARN_BEFORE_LOGOUT
       && (p.active ==> s.clock <= NextTick(p))
       && s.sent == if p.active then before else before + [Logout(LogoutTime(p))]
  }

  /** An upper bound of the number of timer events still to come. */
  function Remaining(s: State, expires: int): nat {
    if s.prompts == [] && s.poll.Some? then
      241 + 1 + if expires - AUTO_LOGOUT_DELTA - s.poll.value >= WARN_BEFORE_LOGOUT
                then (expires - AUTO_LOGOUT_DELTA - s.poll.value - WARN_BEFORE_LOGOUT) / CHECK_SESSION_INTERVAL + 1
                else 0
    else if s.prompts != [] && s.prompts[0].active then
      var left := Steps(s.prompts[0].expiry - s.prompts[0].openedAt) + 1 - s.prompts[0].ticks;
      if left > 0 then left else 0
    else 0
  }

  lemma TimerStep(s: State, expires: int, before: seq<Message>, ev: Event)
    requires Legal(s, ev) && (ev.PollTick? || ev.PromptTick?)
    requires (IdleBeforeExpiry(s, expires) && s.sent == before) || Prompted(s, expires, before)
    ensures var t := Apply(s, ev); (IdleBeforeExpiry(t, expires) && t.sent == before) || Prompted(t, expires, before)
    ensures Remaining(Apply(s, ev), expires) < Remaining(s, expires)
  {
    if ev.PromptTick? {
      TickCounts(s.prompts[ev.prompt]);
    }
  }

  /**
   With ideal timers an idle user whose session is not extended is logged out exactly once: every run
   of the timers is finite, and when no timer is left one logout was sent, more than four seconds
   before the session ends.
   */
  lemma {:induction false} IdleUserIsLoggedOutOnce(s: State, expires: int, before: seq<Message>, evs: seq<Event>)
    requires (IdleBeforeExpiry(s, expires) && s.sent == before) || Prompted(s, expires, before)
    requires LegalRun(s, evs) && OnlyTimers(evs)
    ensures |evs| <= Remaining(s, expires)
    ensures var t := Run(s, evs);
      NoTimerLeft(t) ==>
        exists at: int :: t.sent == before + [Logout(at)] && expires - at > 4000
    ensures var t := Run(s, evs);
      t.sent == before || exists at: int :: t.sent == before + [Logout(at)] && expires - at > 4000
    decreases |evs|
  {
    if evs == [] {
      if Prompted(s, expires, before) {
        LogoutComesInTime(s.prompts[0].expiry, s.prompts[0].openedAt);
      }
      NextTimer(s, expires, before);
    } else {
      assert evs[0] in evs;
      TimerStep(s, expires, before, evs[0]);
      IdleUserIsLoggedOutOnce(Apply(s, evs[0]), expires, before, evs[1..]);
    }
  }

  /** Unless the user is logged out, some timer is running. */
  lemma NextTimer(s: State, expires: int, before: seq<Message>)
    requires (IdleBeforeExpiry(s, expires) && s.sent == before) || Prompted(s, expires, before)
    ensures s.sent == before ==> !NoTimerLeft(s)
  {
    if s.prompts == [] {
      assert Legal(s, PollTick(s.poll.value));
    } else if s.prompts[0].active {
      assert Legal(s, PromptTick(0, NextTick(s.prompts[0])));
    }
  }
}
