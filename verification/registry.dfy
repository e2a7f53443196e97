/**
  The action registries: string-keyed maps from a command or event name to
  its action. Registration overwrites silently (last write wins); there is no
  removal.
*/
module Registry {
  import opened Wrappers
  import opened Messages
  import opened Errors

  type Actions = map<string, Action>

  /** The `string | string[]` argument of `onCommand` and `onEvent`. */
  datatype KeyArg = One(key: string) | Many(keys: seq<string>) {

    /** The keys to register, in order. */
    function AsSeq(): seq<string> {
      match this
      case One(k) => [k]
      case Many(ks) => ks
    }
  }

  /** Registers `a` under every key of `keys`, in order. */
  function Register(m: Actions, keys: seq<string>, a: Action): (r: Actions)
    ensures r.Keys == m.Keys + set k | k in keys
    ensures forall k :: k in keys ==> r[k] == a
    ensures forall k :: k in m && k !in keys ==> r[k] == m[k]
    decreases |keys|
  {
    if keys == [] then m else Register(m[keys[0] := a], keys[1..], a)
  }

  /** Runs the action stored under `key`, or rejects when there is none. */
  function Exec(m: Actions, key: string, msg: Message): (r: Result<Invocation, BotError>)
    ensures r.Failure? <==> key !in m
    ensures r.Failure? ==> r.error == UnregisteredAction(key)
    ensures r.Success? ==> r.value == Invocation(m[key], msg)
  {
    if key in m then Success(Invocation(m[key], msg)) else Failure(UnregisteredAction(key))
  }

  /** After a registration, every listed key runs the new action and every other key behaves as before. */
  lemma ExecAfterRegister(m: Actions, keys: seq<string>, a: Action, key: string, msg: Message)
    ensures key in keys ==> Exec(Register(m, keys, a), key, msg) == Success(Invocation(a, msg))
    ensures key !in keys ==> Exec(Register(m, keys, a), key, msg) == Exec(m, key, msg)
  {
  }

  /** Registering a key twice keeps only the most recent action. */
  lemma LastRegistrationWins(m: Actions, key: string, a1: Action, a2: Action, msg: Message)
    ensures Exec(Register(Register(m, [key], a1), [key], a2), key, msg) == Success(Invocation(a2, msg))
  {
  }
}
