/** Optional values, as returned by lookups that may find nothing. */
module Wrappers {
  datatype Option<+T> = None | Some(value: T)
}

/**
 * WordPress's per-user metadata table (`wp_usermeta`) as the plugin sees it:
 * a dictionary from (user ID, meta key) to a value. Values come back from the
 * database either as strings or as unserialised arrays; the plugin only ever
 * stores strings and lists of provider class names.
 */
module UserMeta {
  import opened Wrappers

  type UserId = int

  datatype MetaKey = MetaKey(user: UserId, name: string)

  /** A stored meta value: a string, or an unserialised array of strings. */
  datatype MetaValue = Text(s: string) | Structured(items: seq<string>)

  type Store = map<MetaKey, MetaValue>

  /** PHP's `empty()` on a string: the empty string and "0" are empty. */
  predicate EmptyString(s: string) {
    s == "" || s == "0"
  }

  /** The value stored for `user` under `name`, if any. */
  function Lookup(store: Store, user: UserId, name: string): (r: Option<MetaValue>)
    ensures r.Some? <==> MetaKey(user, name) in store
    ensures r.Some? ==> r.value == store[MetaKey(user, name)]
  {
    var k := MetaKey(user, name);
    if k in store then Some(store[k]) else None
  }

  /**
   * PHP's `empty()` applied to `get_user_meta($user, $name, true)`: a missing
   * key reads as "", which is empty; an array is empty when it has no items.
   */
  predicate IsEmpty(v: Option<MetaValue>) {
    match v
    case None => true
    case Some(Text(s)) => EmptyString(s)
    case Some(Structured(items)) => items == []
  }

  /** The mutable user-meta table shared by every request handler. */
  class MetaTable {
    var store: Store

    constructor (initial: Store)
      ensures store == initial
    {
      store := initial;
    }

    /** `update_user_meta`: set one key, replacing whatever was there. */
    method Update(user: UserId, name: string, v: MetaValue)
      modifies this
      ensures store == old(store)[MetaKey(user, name) := v]
    {
      store := store[MetaKey(user, name) := v];
    }

    /** `delete_user_meta` without a value filter: remove one key. */
    method Delete(user: UserId, name: string)
      modifies this
      ensures store == old(store) - {MetaKey(user, name)}
    {
      store := store - {MetaKey(user, name)};
    }
  }
}
