/** Values shared by every slice and saga: optional values (TypeScript's `T | null` and
    optional properties), the outcome of a call into a service the core cannot see, and the
    two ways the sagas turn a rejected call into a failure message. */
module Common {

  /** `T | null`, or an optional property: None is null/absent. */
  datatype Option<+T> = None | Some(value: T) {
    function GetOr(default: T): T {
      match this
      case Some(v) => v
      case None => default
    }
  }

  /** What one `yield call(service, ...)` gives back: the resolved value or what it rejected with. */
  datatype Outcome<+T, +E> = Ok(value: T) | Err(error: E)

  /** The rejection of a service call of the newer generation: an Error whose `message` is
      `message`, and whose `response?.data?.message` is `responseMessage` (None when the error
      has no response, no data or no message). */
  datatype ApiError = ApiError(message: string, responseMessage: Option<string>)

  /** What a legacy storage-backed service throws: an `Error` instance, or any other value. */
  datatype Thrown = ErrorInstance(message: string) | OtherValue

  /** `error.response?.data?.message || fallback`: a missing or empty server message falls
      back to the worker's default. */
  function ResponseMessageOr(e: ApiError, fallback: string): (m: string)
    ensures e.responseMessage.Some? && e.responseMessage.value != "" ==> m == e.responseMessage.value
    ensures e.responseMessage == None || e.responseMessage == Some("") ==> m == fallback
    ensures fallback != "" ==> m != ""
  {
    match e.responseMessage
    case Some(server) => if server != "" then server else fallback
    case None => fallback
  }

  /** `error instanceof Error ? error.message : fallback` */
  function ThrownMessageOr(t: Thrown, fallback: string): (m: string)
    ensures t.ErrorInstance? ==> m == t.message
    ensures t.OtherValue? ==> m == fallback
  {
    match t
    case ErrorInstance(message) => message
    case OtherValue => fallback
  }

  /** One effect a saga worker yields: `call(service, ...)` or `put(action)`. */
  datatype Effect<+C, +A> = Call(call: C) | Put(action: A)

  /** The actions a worker dispatches, in order. */
  function Puts<C, A>(effects: seq<Effect<C, A>>): (r: seq<A>)
    ensures |r| <= |effects|
  {
    if effects == [] then []
    else (if effects[0].Put? then [effects[0].action] else []) + Puts(effects[1..])
  }

  /** The service calls a worker makes, in order. */
  function Calls<C, A>(effects: seq<Effect<C, A>>): (r: seq<C>)
    ensures |r| <= |effects|
  {
    if effects == [] then []
    else (if effects[0].Call? then [effects[0].call] else []) + Calls(effects[1..])
  }

  lemma {:induction false} PutsConcat<C, A>(a: seq<Effect<C, A>>, b: seq<Effect<C, A>>)
    ensures Puts(a + b) == Puts(a) + Puts(b)
  {
    if a == [] {
      assert a + b == b;
    } else {
      assert (a + b)[0] == a[0] && (a + b)[1..] == a[1..] + b;
      PutsConcat(a[1..], b);
    }
  }

  /** A store fed a sequence of actions: `step` applied to each in turn. */
  function Fold<S, A>(step: (S, A) -> S, s: S, actions: seq<A>): S
  {
    if actions == [] then s else Fold(step, step(s, actions[0]), actions[1..])
  }

  lemma {:induction false} FoldConcat<S, A>(step: (S, A) -> S, s: S, a: seq<A>, b: seq<A>)
    ensures Fold(step, s, a + b) == Fold(step, Fold(step, s, a), b)
  {
    if a == [] {
      assert a + b == b;
    } else {
      assert (a + b)[0] == a[0] && (a + b)[1..] == a[1..] + b;
      FoldConcat(step, step(s, a[0]), a[1..], b);
    }
  }

  lemma FoldOne<S, A>(step: (S, A) -> S, s: S, a: A)
    ensures Fold(step, s, [a]) == step(s, a)
  {
    assert [a][1..] == [];
  }

  lemma FoldCons<S, A>(step: (S, A) -> S, s: S, a: A, rest: seq<A>)
    ensures Fold(step, s, [a] + rest) == Fold(step, step(s, a), rest)
  {
    assert ([a] + rest)[0] == a && ([a] + rest)[1..] == rest;
  }

  lemma FoldTwo<S, A>(step: (S, A) -> S, s: S, a: A, b: A)
    ensures Fold(step, s, [a, b]) == step(step(s, a), b)
  {
    assert [a, b][1..] == [b];
    FoldOne(step, step(s, a), b);
  }

  /** Puts the actions, in order. */
  function PutAll<C, A>(actions: seq<A>): (effects: seq<Effect<C, A>>)
    ensures |effects| == |actions|
    ensures forall i :: 0 <= i < |actions| ==> effects[i] == Put(actions[i])
  {
    seq(|actions|, i requires 0 <= i < |actions| => Put(actions[i]))
  }

  lemma {:induction false} PutAllPuts<C, A>(actions: seq<A>)
    ensures Puts(PutAll<C, A>(actions)) == actions
    ensures Calls(PutAll<C, A>(actions)) == []
  {
    var effects := PutAll<C, A>(actions);
    if actions != [] {
      assert effects[1..] == PutAll<C, A>(actions[1..]);
      PutAllPuts<C, A>(actions[1..]);
      assert actions == [actions[0]] + actions[1..];
    }
  }

  /** The shape of every worker of the newer store: one service call, then its puts. */
  function CallThen<C, A>(call: C, actions: seq<A>): (effects: seq<Effect<C, A>>)
    ensures Calls(effects) == [call]
    ensures Puts(effects) == actions
    ensures |effects| == 1 + |actions| && effects[0] == Call(call)
  {
    var rest := PutAll<C, A>(actions);
    PutAllPuts<C, A>(actions);
    assert ([Call(call)] + rest)[1..] == rest;
    [Call(call)] + rest
  }

  /** A put ahead of the rest of a worker's effects. */
  function PutThen<C, A>(action: A, rest: seq<Effect<C, A>>): (effects: seq<Effect<C, A>>)
    ensures Puts(effects) == [action] + Puts(rest)
    ensures Calls(effects) == Calls(rest)
    ensures |effects| == 1 + |rest| && effects[0] == Put(action) && effects[1..] == rest
  {
    assert ([Put(action)] + rest)[1..] == rest;
    [Put(action)] + rest
  }

  /** A call ahead of the rest of a worker's effects. */
  function CallBefore<C, A>(call: C, rest: seq<Effect<C, A>>): (effects: seq<Effect<C, A>>)
    ensures Calls(effects) == [call] + Calls(rest)
    ensures Puts(effects) == Puts(rest)
    ensures |effects| == 1 + |rest| && effects[0] == Call(call) && effects[1..] == rest
  {
    assert ([Call(call)] + rest)[1..] == rest;
    [Call(call)] + rest
  }
}
