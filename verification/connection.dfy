/** The ClickHouse connection form: five text inputs, a Connect button and
    two flags, `isConnecting` and `isConnected`. The form is a small state
    machine driven by user edits, presses of Connect and the gateway's
    answer to the connect request. */
module ConnectionForm {

  /** The five entered fields, all kept as text (the port too). */
  datatype Config = Config(host: string, port: string, database: string, username: string, password: string)

  datatype Field = Host | Port | Database | Username | Password

  /** The value of one input. */
  function Get(c: Config, f: Field): string
  {
    match f
    case Host => c.host
    case Port => c.port
    case Database => c.database
    case Username => c.username
    case Password => c.password
  }

  /** The `onChange` of one input: that field takes the typed value and the
      other four keep theirs. */
  function Set(c: Config, f: Field, v: string): (c': Config)
    ensures Get(c', f) == v
    ensures forall g :: g != f ==> Get(c', g) == Get(c, g)
  {
    match f
    case Host => c.(host := v)
    case Port => c.(port := v)
    case Database => c.(database := v)
    case Username => c.(username := v)
    case Password => c.(password := v)
  }

  /** The values the inputs start with. */
  const DefaultConfig := Config("localhost", "8123", "default", "default", "")

  /** The required-field check of `handleConnect`: every field but the
      password is non-empty. */
  function RequiredFilled(c: Config): (ok: bool)
    ensures ok <==> forall f :: f != Password ==> Get(c, f) != ""
  {
    assert Get(c, Host) == c.host && Get(c, Port) == c.port;
    assert Get(c, Database) == c.database && Get(c, Username) == c.username;
    c.host != "" && c.port != "" && c.database != "" && c.username != ""
  }

  /** The password never decides whether a connect attempt is allowed. */
  lemma PasswordIsOptional(c: Config, pw: string)
    ensures RequiredFilled(Set(c, Password, pw)) == RequiredFilled(c)
  {
    assert forall f :: f != Password ==> Get(Set(c, Password, pw), f) == Get(c, f);
  }

  /** The form's state: the entered values and the two flags. */
  datatype Form = Form(config: Config, isConnecting: bool, isConnected: bool)

  /** The form as first rendered. */
  function InitialForm(): (f: Form)
    ensures !f.isConnecting && !f.isConnected
    ensures Get(f.config, Host) == "localhost" && Get(f.config, Port) == "8123"
    ensures Get(f.config, Database) == "default" && Get(f.config, Username) == "default"
    ensures Get(f.config, Password) == ""
    ensures RequiredFilled(f.config)
  {
    Form(DefaultConfig, false, false)
  }

  /** What the gateway does with one connect request. */
  datatype ConnectOutcome =
    | ConnectReply(success: bool, message: string)
    | ConnectThrew

  /** True exactly when the gateway accepted the connection. */
  predicate Accepted(o: ConnectOutcome)
  {
    o.ConnectReply? && o.success
  }

  /** What a user or the gateway can do to the form. */
  datatype Action =
    | Edit(field: Field, value: string)
    | PressConnect
    | GatewayAnswers(outcome: ConnectOutcome)

  /** What the form does outside itself: a warning, a connect request to the
      gateway, and the `onConnected` callback. */
  datatype Notice =
    | MissingFieldsWarning
    | ConnectRequested(config: Config)
    | ConnectedCallback(success: bool)

  /** The inputs are disabled once connected. */
  predicate InputsLocked(f: Form)
  {
    f.isConnected
  }

  /** The Connect button is disabled while connecting and once connected. */
  predicate ConnectDisabled(f: Form)
  {
    f.isConnecting || f.isConnected
  }

  /** The Connect button's text. */
  function ConnectLabel(f: Form): (caption: string)
    ensures caption == "Connecting..." <==> f.isConnecting
    ensures caption == "Connected ✓" <==> !f.isConnecting && f.isConnected
    ensures caption == "Connect" <==> !f.isConnecting && !f.isConnected
  {
    if f.isConnecting then "Connecting..."
    else if f.isConnected then "Connected ✓"
    else "Connect"
  }

  /** The Connect button is disabled exactly when its caption is not
      `Connect`; locked inputs imply a disabled button; and in the three
      reachable states the inputs are locked exactly when the caption shows
      the connection. */
  lemma ControlsFollowCaption(f: Form)
    ensures ConnectDisabled(f) <==> ConnectLabel(f) != "Connect"
    ensures InputsLocked(f) ==> ConnectDisabled(f)
    ensures !(f.isConnecting && f.isConnected) ==> (InputsLocked(f) <==> ConnectLabel(f) == "Connected ✓")
  {
  }

  /** One step of the form. Edits reach only enabled inputs and presses only
      an enabled button; the gateway's answer is only awaited while
      connecting. */
  function Step(f: Form, a: Action): (r: (Form, seq<Notice>))
    // a connect request is issued exactly on an allowed press, and it
    // carries the five entered values unchanged
    ensures forall i :: 0 <= i < |r.1| && r.1[i].ConnectRequested? ==>
              a.PressConnect? && !ConnectDisabled(f) && RequiredFilled(f.config) && r.1[i].config == f.config
    ensures a.PressConnect? && !ConnectDisabled(f) && RequiredFilled(f.config) ==>
              r.1 == [ConnectRequested(f.config)] && r.0.isConnecting && r.0.config == f.config
    // a press with a required field empty only warns
    ensures a.PressConnect? && !ConnectDisabled(f) && !RequiredFilled(f.config) ==>
              r == (f, [MissingFieldsWarning])
    // the answer ends the attempt whatever it is, and reports its success
    ensures a.GatewayAnswers? && f.isConnecting ==>
              && !r.0.isConnecting
              && r.0.isConnected == (f.isConnected || Accepted(a.outcome))
              && r.1 == [ConnectedCallback(Accepted(a.outcome))]
    // the connected flag is never cleared, and once set nothing changes
    ensures f.isConnected ==> r.0.isConnected
    ensures f.isConnected && !f.isConnecting ==> r == (f, [])
    // the three states: connecting and connected never hold together
    ensures !(f.isConnecting && f.isConnected) ==> !(r.0.isConnecting && r.0.isConnected)
    // an edit sets exactly the edited field of an unlocked form and nothing
    // else, and is ignored by a locked one
    ensures a.Edit? && !InputsLocked(f) ==> r == (f.(config := Set(f.config, a.field, a.value)), [])
    ensures a.Edit? && InputsLocked(f) ==> r == (f, [])
    // presses and answers never touch the entered values; a press on a
    // disabled button and an answer nobody awaits do nothing
    ensures !a.Edit? ==> r.0.config == f.config
    ensures a.PressConnect? && ConnectDisabled(f) ==> r == (f, [])
    ensures a.GatewayAnswers? && !f.isConnecting ==> r == (f, [])
  {
    match a
    case Edit(field, v) =>
      if InputsLocked(f) then (f, []) else (f.(config := Set(f.config, field, v)), [])
    case PressConnect =>
      if ConnectDisabled(f) then (f, [])
      else if !RequiredFilled(f.config) then (f, [MissingFieldsWarning])
      else (f.(isConnecting := true), [ConnectRequested(f.config)])
    case GatewayAnswers(o) =>
      if !f.isConnecting then (f, [])
      else if Accepted(o) then (f.(isConnecting := false, isConnected := true), [ConnectedCallback(true)])
      else (f.(isConnecting := false), [ConnectedCallback(false)])
  }

  /** The form after a sequence of actions, with every notice in order. */
  function Run(f: Form, actions: seq<Action>): (Form, seq<Notice>)
    decreases |actions|
  {
    if |actions| == 0 then (f, [])
    else
      var first := Step(f, actions[0]);
      var rest := Run(first.0, actions[1..]);
      (rest.0, first.1 + rest.1)
  }

  /** Running `a` then `rest` is one step followed by the rest. */
  lemma RunCons(f: Form, a: Action, rest: seq<Action>)
    ensures var first := Step(f, a);
      Run(f, [a] + rest) == (Run(first.0, rest).0, first.1 + Run(first.0, rest).1)
  {
    assert ([a] + rest)[1..] == rest;
  }

  /** Once connected, the form is frozen: no sequence of actions changes the
      entered values, clears the connected state or reaches the gateway. */
  lemma {:induction false} ConnectedFormIsFrozen(f: Form, actions: seq<Action>)
    requires f.isConnected && !f.isConnecting
    ensures Run(f, actions) == (f, [])
    decreases |actions|
  {
    if |actions| > 0 {
      assert Step(f, actions[0]) == (f, []);
      ConnectedFormIsFrozen(f, actions[1..]);
      assert Run(f, actions).1 == [] + [];
    }
  }

  /** Every form reachable from the initial one is in one of three states:
      not connected, connecting, or connected. */
  lemma {:induction false} ReachableFormsHaveThreeStates(f: Form, actions: seq<Action>)
    requires !(f.isConnecting && f.isConnected)
    ensures !(Run(f, actions).0.isConnecting && Run(f, actions).0.isConnected)
    decreases |actions|
  {
    if |actions| > 0 {
      ReachableFormsHaveThreeStates(Step(f, actions[0]).0, actions[1..]);
    }
  }

  /** A connected form stays connected through any actions. */
  lemma {:induction false} ConnectedStaysConnected(f: Form, actions: seq<Action>)
    requires f.isConnected
    ensures Run(f, actions).0.isConnected
    decreases |actions|
  {
    if |actions| > 0 {
      ConnectedStaysConnected(Step(f, actions[0]).0, actions[1..]);
    }
  }

  /** With the defaults untouched, Connect followed by an accepting answer
      sends the defaults and leaves the form connected. */
  lemma ConnectWithDefaults(message: string)
    ensures Run(InitialForm(), [PressConnect, GatewayAnswers(ConnectReply(true, message))])
         == (Form(DefaultConfig, false, true), [ConnectRequested(DefaultConfig), ConnectedCallback(true)])
  {
    var answer := GatewayAnswers(ConnectReply(true, message));
    var f1 := Form(DefaultConfig, true, false);
    assert Accepted(answer.outcome);
    assert Step(f1, answer) == (Form(DefaultConfig, false, true), [ConnectedCallback(true)]);
    var f2 := Form(DefaultConfig, false, true);
    var none: seq<Action> := [];
    RunCons(f1, answer, none);
    assert Run(f2, none) == (f2, []);
    assert [answer] + none == [answer];
    assert Run(f1, [answer] + none).0 == f2;
    assert Run(f1, [answer] + none).1 == [ConnectedCallback(true)];
    assert Run(f1, [answer]) == (Form(DefaultConfig, false, true), [ConnectedCallback(true)]);
    assert Step(InitialForm(), PressConnect) == (f1, [ConnectRequested(DefaultConfig)]);
    RunCons(InitialForm(), PressConnect, [answer]);
    assert [PressConnect] + [answer] == [PressConnect, answer];
    assert [ConnectRequested(DefaultConfig)] + [ConnectedCallback(true)]
        == [ConnectRequested(DefaultConfig), ConnectedCallback(true)];
  }

  /** The inputs stay enabled while the request is in flight, so an edit made
      then is what gets locked, although the gateway saw the old value. */
  lemma EditWhileConnectingIsLocked(host: string, message: string)
    requires host != "localhost"
    ensures var actions := [PressConnect, Edit(Host, host), GatewayAnswers(ConnectReply(true, message))];
      var (f, notices) := Run(InitialForm(), actions);
      && f.isConnected
      && f.config.host == host
      && notices[0] == ConnectRequested(DefaultConfig)
      && notices[0].config.host != f.config.host
  {
    var edit := Edit(Host, host);
    var answer := GatewayAnswers(ConnectReply(true, message));
    var edited := DefaultConfig.(host := host);
    RunCons(Form(edited, true, false), answer, []);
    RunCons(Form(DefaultConfig, true, false), edit, [answer]);
    RunCons(InitialForm(), PressConnect, [edit, answer]);
  }

  /** A refused or failed connect attempt leaves the form editable and ready
      for another attempt. */
  lemma {:induction false} FailedAttemptCanBeRetried(f: Form, o: ConnectOutcome)
    requires !f.isConnecting && !f.isConnected && RequiredFilled(f.config)
    requires !Accepted(o)
    ensures var (f1, n1) := Run(f, [PressConnect, GatewayAnswers(o)]);
      && f1 == f
      && n1 == [ConnectRequested(f.config), ConnectedCallback(false)]
      && !ConnectDisabled(f1) && !InputsLocked(f1)
  {
    var answer := GatewayAnswers(o);
    RunCons(f.(isConnecting := true), answer, []);
    RunCons(f, PressConnect, [answer]);
  }
}
