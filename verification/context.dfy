/** The per-run execution context of the engine (api/pkg/engine/context.go):
    a string-keyed state map and the step counter.  The Go context, the start
    time and the distinction between a nil and an empty State map are not
    modelled; a nil map reads exactly like an empty one. */
module ExecutionContext {
  import opened Values

  datatype Context = Context(state: map<string, Value>, stepNumber: int)

  function NewExecutionContext(): (ec: Context)
    ensures ec.state == map[]
    ensures ec.stepNumber == 0
    ensures forall key :: Get(ec, key) == Nil
  {
    Context(map[], 0)
  }

  /** The stored value, or nil when the key is absent. */
  function Get(ec: Context, key: string): (v: Value)
    ensures key in ec.state ==> v == ec.state[key]
    ensures key !in ec.state ==> v == Nil
  {
    Lookup(ec.state, key)
  }

  function Set(ec: Context, key: string, value: Value): (ec': Context)
    ensures Get(ec', key) == value
    ensures forall other :: other != key ==> Get(ec', other) == Get(ec, other)
    ensures ec'.state.Keys == ec.state.Keys + {key}
    ensures ec'.stepNumber == ec.stepNumber
  {
    ec.(state := ec.state[key := value])
  }

  /** The stored value when it is a string, otherwise "". */
  function GetString(ec: Context, key: string): (s: string)
    ensures Get(ec, key).Str? ==> s == Get(ec, key).s
    ensures !Get(ec, key).Str? ==> s == ""
    ensures s != "" ==> Get(ec, key) == Str(s)
  {
    match Get(ec, key)
    case Str(s) => s
    case _ => ""
  }

  /** The stored value when it is a float64, otherwise 0.  A float32 or an
      int stored under the key also reads as 0. */
  function GetFloat(ec: Context, key: string): (x: real)
    ensures Get(ec, key).F64? ==> x == Get(ec, key).r
    ensures !Get(ec, key).F64? ==> x == 0.0
    ensures x != 0.0 ==> Get(ec, key) == F64(x)
  {
    match Get(ec, key)
    case F64(x) => x
    case _ => 0.0
  }

  /** Copying a map into the context key by key, as Execute does with its
      initial state: every copied key reads back its value and every other
      key is left as it was. */
  function Load(ec: Context, initial: map<string, Value>): (ec': Context)
    ensures forall key :: key in initial ==> Get(ec', key) == initial[key]
    ensures forall key :: key !in initial ==> Get(ec', key) == Get(ec, key)
    ensures ec'.state.Keys == ec.state.Keys + initial.Keys
    ensures ec'.stepNumber == ec.stepNumber
  {
    ec.(state := ec.state + initial)
  }

  /** Set followed by Get of the same key returns the stored value; reading a
      typed value back through the matching typed getter returns it too. */
  lemma {:induction false} SetThenTypedGet(ec: Context, key: string, s: string, x: real)
    ensures GetString(Set(ec, key, Str(s)), key) == s
    ensures GetFloat(Set(ec, key, F64(x)), key) == x
    ensures GetString(Set(ec, key, F64(x)), key) == ""
    ensures GetFloat(Set(ec, key, Str(s)), key) == 0.0
  {
  }

  /** Setting a key twice keeps only the second value, and setting two
      different keys commutes. */
  lemma SetLaws(ec: Context, k1: string, k2: string, v1: Value, v2: Value)
    ensures Set(Set(ec, k1, v1), k1, v2) == Set(ec, k1, v2)
    ensures k1 != k2 ==> Set(Set(ec, k1, v1), k2, v2) == Set(Set(ec, k2, v2), k1, v1)
  {
  }
}
