/**
 * What the components hand to React and to the browser. Rendering yields a `View`;
 * notifications (`toast.*`) and navigations (`router.push`) are appended, in the
 * order the code issues them, to an `EffectLog`.
 */
module Ui {
  import opened Wrappers

  datatype ToastLevel = ErrorToast | SuccessToast | InfoToast

  datatype Effect =
    | Toast(level: ToastLevel, title: string, description: Option<string>)
    | Push(path: string)

  /** A React node supplied by the caller, such as a guard's `fallback`; `Null` is JSX `null`. */
  datatype Node = Null | Element(name: string)

  /** What a component renders. `Throws` is a render that raises an exception. */
  datatype View = Children | Fallback(node: Node) | Spinner | Nothing | Throws

  /** Number of navigations in a list of effects. */
  function PushCount(es: seq<Effect>): nat {
    if es == [] then 0 else (if es[0].Push? then 1 else 0) + PushCount(es[1..])
  }

  /** Number of notifications in a list of effects. */
  function ToastCount(es: seq<Effect>): nat {
    if es == [] then 0 else (if es[0].Toast? then 1 else 0) + ToastCount(es[1..])
  }

  /** The side effects issued so far, oldest first. */
  class EffectLog {
    var events: seq<Effect>

    constructor ()
      ensures events == []
    {
      events := [];
    }

    /** `toast.error|success|info(title, { description })`. */
    method Toast(level: ToastLevel, title: string, description: Option<string>)
      modifies this
      ensures events == old(events) + [Effect.Toast(level, title, description)]
    {
      events := events + [Effect.Toast(level, title, description)];
    }

    /** `router.push(path)`. */
    method Push(path: string)
      modifies this
      ensures events == old(events) + [Effect.Push(path)]
    {
      events := events + [Effect.Push(path)];
    }
  }
}
