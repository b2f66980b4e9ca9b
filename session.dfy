/** The session synchronizer of `AuthProvider`: the current user and the
    loading flag, kept in step with the identity service's auth-state events
    and with the results of sign-up, log-in and log-out. */
module Session {
  import opened Outcomes

  /** The signed-in principal as the identity service reports it. */
  datatype User = User(uid: string, email: string)

  /** What account creation and sign-in resolve with. */
  datatype Credential = Credential(user: User)

  /** The provider's state: `user` and `loading` are its two state hooks,
      `subscribed` says whether its auth-state listener is still registered. */
  datatype SessionState = SessionState(user: Option<User>, loading: bool, subscribed: bool)

  /** Everything that can change the provider's state: an auth-state event
      delivered by the identity service, the settling of one of the five
      operations (with the outcome of its remote call), or unmounting. */
  datatype Event =
    | AuthStateChanged(payload: Option<User>)
    | SignupSettled(credential: Outcome<Credential>)
    | LoginSettled(credential: Outcome<Credential>)
    | LogoutSettled(done: Outcome<()>)
    | ResetPasswordSettled(done: Outcome<()>)
    | ConfirmResetSettled(done: Outcome<()>)
    | Unmount

  /** On mount: no user, still loading, listener registered. */
  function Initial(): SessionState
  {
    SessionState(None, true, true)
  }

  /** The effect of one event. The identity service calls the listener only
      while it is registered; a local `setUser` runs only after the awaited
      remote call has resolved. */
  function Step(s: SessionState, e: Event): SessionState
  {
    match e
    case AuthStateChanged(p) => if s.subscribed then s.(user := p, loading := false) else s
    case SignupSettled(c) => if c.Ok? then s.(user := Some(c.value.user)) else s
    case LoginSettled(c) => if c.Ok? then s.(user := Some(c.value.user)) else s
    case LogoutSettled(d) => if d.Ok? then s.(user := None) else s
    case ResetPasswordSettled(_) => s
    case ConfirmResetSettled(_) => s
    case Unmount => s.(subscribed := false)
  }

  /** The state after a sequence of events, in order. */
  function Run(s: SessionState, events: seq<Event>): SessionState
    decreases |events|
  {
    if events == [] then s else Run(Step(s, events[0]), events[1..])
  }

  /** Whether some auth-state event in `events` reaches the listener, that is,
      arrives while it is still registered. */
  function DeliversAuthEvent(subscribed: bool, events: seq<Event>): bool
    decreases |events|
  {
    if events == [] then false
    else
      (subscribed && events[0].AuthStateChanged?)
      || DeliversAuthEvent(subscribed && !events[0].Unmount?, events[1..])
  }

  /** `events` without the auth-state events. */
  function WithoutAuthEvents(events: seq<Event>): (r: seq<Event>)
    ensures forall e :: e in r ==> !e.AuthStateChanged?
    ensures forall e :: e in events && !e.AuthStateChanged? ==> e in r
    decreases |events|
  {
    if events == [] then []
    else if events[0].AuthStateChanged? then WithoutAuthEvents(events[1..])
    else [events[0]] + WithoutAuthEvents(events[1..])
  }

  /** Whether the provider renders its children in state `s`. */
  function RendersChildren(s: SessionState): bool
  {
    !s.loading
  }

  /** Appending one event to a run applies that event last. */
  lemma {:induction false} RunSnoc(s: SessionState, events: seq<Event>, e: Event)
    ensures Run(s, events + [e]) == Step(Run(s, events), e)
    decreases |events|
  {
    if events == [] {
      assert events + [e] == [e];
    } else {
      assert (events + [e])[1..] == events[1..] + [e];
      RunSnoc(Step(s, events[0]), events[1..], e);
    }
  }

  /** Once `loading` is false no event sets it back to true. */
  lemma {:induction false} LoadingNeverReturns(s: SessionState, events: seq<Event>)
    requires !s.loading
    ensures !Run(s, events).loading
    decreases |events|
  {
    if events != [] {
      LoadingNeverReturns(Step(s, events[0]), events[1..]);
    }
  }

  /** The listener stays registered exactly until the first unmount. */
  lemma {:induction false} SubscribedUntilUnmount(s: SessionState, events: seq<Event>)
    ensures Run(s, events).subscribed <==> s.subscribed && Unmount !in events
    decreases |events|
  {
    if events != [] {
      SubscribedUntilUnmount(Step(s, events[0]), events[1..]);
      assert Unmount in events <==> events[0] == Unmount || Unmount in events[1..];
    }
  }

  /** `loading` is still true after a run exactly when it was true before and
      no auth-state event reached the listener. */
  lemma {:induction false} LoadingUntilFirstDelivery(s: SessionState, events: seq<Event>)
    ensures Run(s, events).loading <==> s.loading && !DeliversAuthEvent(s.subscribed, events)
    decreases |events|
  {
    if events != [] {
      var t := Step(s, events[0]);
      LoadingUntilFirstDelivery(t, events[1..]);
      assert t.subscribed == (s.subscribed && !events[0].Unmount?);
    }
  }

  /** From mount on, the children are rendered exactly once an auth-state
      event has reached the listener. */
  lemma RenderGate(events: seq<Event>)
    ensures RendersChildren(Run(Initial(), events)) <==> DeliversAuthEvent(true, events)
  {
    LoadingUntilFirstDelivery(Initial(), events);
  }

  /** While the listener is registered, the latest auth-state event decides
      the user, whatever sign-up or log-in results were applied before it. */
  lemma LastAuthEventWins(s: SessionState, events: seq<Event>, p: Option<User>)
    requires s.subscribed && Unmount !in events
    ensures Run(s, events + [AuthStateChanged(p)]).user == p
    ensures !Run(s, events + [AuthStateChanged(p)]).loading
  {
    RunSnoc(s, events, AuthStateChanged(p));
    SubscribedUntilUnmount(s, events);
  }

  /** After unmounting, auth-state events change nothing: a run gives the same
      state as the same run with every auth-state event dropped. */
  lemma {:induction false} UnmountedIgnoresAuthEvents(s: SessionState, events: seq<Event>)
    requires !s.subscribed
    ensures Run(s, events) == Run(s, WithoutAuthEvents(events))
    decreases |events|
  {
    if events != [] {
      var t := Step(s, events[0]);
      assert !t.subscribed;
      UnmountedIgnoresAuthEvents(t, events[1..]);
      if !events[0].AuthStateChanged? {
        var rest := WithoutAuthEvents(events[1..]);
        assert WithoutAuthEvents(events) == [events[0]] + rest;
        assert ([events[0]] + rest)[1..] == rest;
      }
    }
  }

  /** A log-out that resolves leaves no user, and a second one keeps it so. */
  lemma LogoutIdempotent(s: SessionState)
    ensures Run(s, [LogoutSettled(Ok(()))]).user == None
    ensures Run(s, [LogoutSettled(Ok(())), LogoutSettled(Ok(()))])
         == Run(s, [LogoutSettled(Ok(()))])
  {
    assert [LogoutSettled(Ok(())), LogoutSettled(Ok(()))][1..] == [LogoutSettled(Ok(()))];
  }

  /** The provider component: its state hooks are fields, each operation a
      method whose remote call is given as its outcome. */
  class AuthProvider {
    var user: Option<User>
    var loading: bool
    var subscribed: bool

    function State(): SessionState
      reads this
    {
      SessionState(user, loading, subscribed)
    }

    /** Mounting: the hooks start at `null` and `true` and the effect
        registers the auth-state listener. */
    constructor ()
      ensures State() == Initial()
      ensures user == None && loading && subscribed
    {
      user := None;
      loading := true;
      subscribed := true;
    }

    /** The listener: the event's payload becomes the user and loading ends. */
    method OnAuthStateChanged(payload: Option<User>)
      modifies this
      ensures State() == Step(old(State()), AuthStateChanged(payload))
      ensures old(subscribed) ==> user == payload && !loading && subscribed
      ensures !old(subscribed) ==> unchanged(this)
    {
      if subscribed {
        user := payload;
        loading := false;
      }
    }

    /** Account creation; `remote` is what the identity service resolves with. */
    method Signup(email: string, password: string, remote: Outcome<Credential>)
      returns (r: Outcome<Credential>)
      modifies this
      ensures r == remote
      ensures user == if remote.Ok? then Some(remote.value.user) else old(user)
      ensures loading == old(loading) && subscribed == old(subscribed)
      ensures State() == Step(old(State()), SignupSettled(remote))
    {
      r := remote;
      if r.Ok? {
        user := Some(r.value.user);
      }
    }

    /** Sign-in; `remote` is what the identity service resolves with. */
    method Login(email: string, password: string, remote: Outcome<Credential>)
      returns (r: Outcome<Credential>)
      modifies this
      ensures r == remote
      ensures user == if remote.Ok? then Some(remote.value.user) else old(user)
      ensures loading == old(loading) && subscribed == old(subscribed)
      ensures State() == Step(old(State()), LoginSettled(remote))
    {
      r := remote;
      if r.Ok? {
        user := Some(r.value.user);
      }
    }

    /** Sign-out; the user is cleared only after the remote call resolves. */
    method Logout(remote: Outcome<()>) returns (r: Outcome<()>)
      modifies this
      ensures r == remote
      ensures user == if remote.Ok? then None else old(user)
      ensures loading == old(loading) && subscribed == old(subscribed)
      ensures State() == Step(old(State()), LogoutSettled(remote))
    {
      r := remote;
      if r.Ok? {
        user := None;
      }
    }

    /** Sends a reset e-mail; with no `modifies` clause the provider's state
        cannot change. */
    method ResetPassword(email: string, remote: Outcome<()>) returns (r: Outcome<()>)
      ensures r == remote
    {
      r := remote;
    }

    /** Applies a reset code; with no `modifies` clause the provider's state
        cannot change. */
    method ConfirmPasswordReset(oobCode: string, newPassword: string, remote: Outcome<()>)
      returns (r: Outcome<()>)
      ensures r == remote
    {
      r := remote;
    }

    /** The effect's cleanup: the listener is released. */
    method Unmount()
      modifies this
      ensures State() == Step(old(State()), Event.Unmount)
      ensures !subscribed && user == old(user) && loading == old(loading)
    {
      subscribed := false;
    }
  }
}
