/**
 * The contact form's time-to-live envelope over the browser's key-value store (`saveWithTTL`,
 * `loadWithTTL` and `clearStored` of src/components/Contact.jsx). Each key holds the JSON text of
 * `{ value, expiry }`; the model keeps the parsed envelope, or `Unreadable` for text that is empty, fails to
 * parse, or parses to `null`. Time is an explicit parameter in milliseconds.
 */
module TtlStorage {

  /** The JSON values the two keys hold; `Null` stands for both `null` and `undefined`. */
  datatype Value = Null | Num(n: int) | Str(s: string) | Record(fields: map<string, string>)

  /** `expiry` is a number, or something else (a missing or non-numeric expiry never expires). */
  datatype Expiry = At(ms: int) | NotANumber

  datatype Entry = Envelope(value: Value, expiry: Expiry) | Unreadable

  type Storage = map<string, Entry>

  /** `saveWithTTL(key, value, ttl)` at time `now`: the key holds `{ value, expiry: now + ttl }`. */
  function Save(st: Storage, key: string, value: Value, ttl: int, now: int): (r: Storage)
    ensures key in r && r[key] == Envelope(value, At(now + ttl))
    ensures forall k :: k != key ==> (k in r <==> k in st) && (k in st ==> r[k] == st[k])
  {
    st[key := Envelope(value, At(now + ttl))]
  }

  /** What a load returns together with the store it leaves behind. */
  datatype Loaded = Loaded(value: Value, storage: Storage)

  /**
   * `loadWithTTL(key)` at time `now`: `null` for a missing or unreadable key; `null` for an envelope whose
   * numeric expiry lies strictly before `now`, which is also removed; otherwise the stored value.
   */
  function Load(st: Storage, key: string, now: int): (r: Loaded)
    ensures key !in st ==> r == Loaded(Null, st)
    ensures key in st && st[key].Unreadable? ==> r == Loaded(Null, st)
    ensures r.storage == st || r.storage == st - {key}
    ensures r.storage != st ==> r.value == Null && key in st && st[key].Envelope? && st[key].expiry.At? && now > st[key].expiry.ms
    ensures key in st && st[key].Envelope? && !(st[key].expiry.At? && now > st[key].expiry.ms) ==> r == Loaded(st[key].value, st)
  {
    if key !in st then Loaded(Null, st)
    else match st[key]
      case Unreadable => Loaded(Null, st)
      case Envelope(value, expiry) =>
        if expiry.At? && now > expiry.ms then Loaded(Null, st - {key}) else Loaded(value, st)
  }

  /** `clearStored`: both of the form's keys are removed. */
  function Clear(st: Storage, keys: set<string>): (r: Storage)
    ensures forall k :: k in r <==> k in st && k !in keys
  {
    st - keys
  }

  // ---------------------------------------------------------------------------------------------
  // Properties
  // ---------------------------------------------------------------------------------------------

  /**
   * A save at time `t` followed by a load at `t'` returns the saved value up to and including
   * `t + ttl`, and after that returns `null` and leaves the key removed.
   */
  lemma LoadAfterSave(st: Storage, key: string, v: Value, ttl: int, t: int, t': int)
    ensures t' <= t + ttl ==> Load(Save(st, key, v, ttl, t), key, t') == Loaded(v, Save(st, key, v, ttl, t))
    ensures t' > t + ttl ==> Load(Save(st, key, v, ttl, t), key, t') == Loaded(Null, st - {key})
  {
    if t' > t + ttl {
      assert Save(st, key, v, ttl, t) - {key} == st - {key};
    }
  }

  /** Loading a key again at the same moment returns the same value and changes nothing more. */
  lemma LoadIdempotent(st: Storage, key: string, now: int)
    ensures Load(Load(st, key, now).storage, key, now) == Loaded(Load(st, key, now).value, Load(st, key, now).storage)
  {
  }

  /** Saving or loading one key never disturbs what another key loads: the step and the form data are independent. */
  lemma KeysIndependent(st: Storage, key: string, other: string, v: Value, ttl: int, t: int, now: int)
    requires key != other
    ensures Load(Save(st, other, v, ttl, t), key, now).value == Load(st, key, now).value
    ensures Load(Load(st, other, now).storage, key, now).value == Load(st, key, now).value
  {
  }
}
