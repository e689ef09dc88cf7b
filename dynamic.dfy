/**
 * The dynamically typed configuration values the notification setup reads (`interface{}` as the
 * YAML decoder produces it): strings, lists, maps whose keys may be of any type, and any other
 * value. Only the distinctions the setup code makes are kept.
 */
module Dynamic {

  /** A map key as decoded: a string, or a key of another type (a number, a boolean, ...). */
  datatype Key = StrKey(s: string) | OtherKey(id: int)

  datatype Dyn =
    | DStr(s: string)
    | DList(items: seq<Dyn>)
    | DMap(entries: map<Key, Dyn>)
    | DOther

  /** `map[string]interface{}`, the shape the notifier constructors take. */
  type Config = map<string, Dyn>

  /** The entries of a decoded map re-keyed by their string keys. */
  function StringKeyed(e: map<Key, Dyn>): (m: Config)
    ensures forall s :: s in m <==> StrKey(s) in e
    ensures forall s | s in m :: m[s] == e[StrKey(s)]
  {
    map k | k in e && k.StrKey? :: k.s := e[k]
  }

  /** Go's `==` between an `interface{}` value and a string constant: true exactly when the
      value holds that string. A missing map key compares as nil and equals no string. */
  predicate HoldsString(cfg: Config, key: string, s: string) {
    key in cfg && cfg[key] == DStr(s)
  }
}
