/** The context half of grammar.go: the `Grammar` struct with its stack of
    operations per key, its modifier registry and its random source, and
    the methods that implement exec.Context. */
module Context {
  import opened Outcomes
  import opened Ops
  import opened Modifiers

  /** Key to stack of operations; the last element is the top. */
  type Store = map<string, seq<Op>>

  /** No key ever holds an empty stack. */
  predicate StacksNonEmpty(st: Store)
  {
    forall k :: k in st ==> st[k] != []
  }

  /** The part of the context that resolution reads but never changes. */
  datatype Env = Env(modifiers: map<string, ModifierFn>, rand: int -> int)

  /** `Lookup`: the top of the key's stack, if the key is bound. */
  function Top(st: Store, key: string): Option<Op>
    requires StacksNonEmpty(st)
  {
    if key in st then Some(st[key][|st[key]| - 1]) else None
  }

  /** `Push`: a new top for the key, starting a stack if there is none. */
  function Pushed(st: Store, key: string, op: Op): Store
  {
    if key in st then st[key := st[key] + [op]] else st[key := [op]]
  }

  /** `Pop`: drop the top unless the key is unbound or its stack has a
      single entry. */
  function Popped(st: Store, key: string): Store
    requires StacksNonEmpty(st)
  {
    if key !in st || |st[key]| == 1 then st else st[key := st[key][..|st[key]| - 1]]
  }

  lemma PushedFacts(st: Store, key: string, op: Op)
    requires StacksNonEmpty(st)
    ensures StacksNonEmpty(Pushed(st, key, op))
    ensures Top(Pushed(st, key, op), key) == Some(op)
    ensures Pushed(st, key, op)[key] == (if key in st then st[key] else []) + [op]
    ensures Pushed(st, key, op).Keys == st.Keys + {key}
    ensures forall k :: k in st && k != key ==> Pushed(st, key, op)[k] == st[k]
  {
  }

  lemma PoppedFacts(st: Store, key: string)
    requires StacksNonEmpty(st)
    ensures StacksNonEmpty(Popped(st, key))
    ensures Popped(st, key).Keys == st.Keys
    ensures key !in st || |st[key]| == 1 ==> Popped(st, key) == st
    ensures key in st && |st[key]| > 1 ==> Popped(st, key)[key] == st[key][..|st[key]| - 1]
    ensures forall k :: k in st && k != key ==> Popped(st, key)[k] == st[k]
  {
  }

  /** Pop undoes Push on a bound key; on an unbound key the first entry is
      a floor that Pop cannot remove. */
  lemma PopAfterPush(st: Store, key: string, op: Op)
    requires StacksNonEmpty(st)
    ensures StacksNonEmpty(Pushed(st, key, op))
    ensures key in st ==> Popped(Pushed(st, key, op), key) == st
    ensures key !in st ==> Popped(Pushed(st, key, op), key) == Pushed(st, key, op)
  {
    if key in st {
      assert (st[key] + [op])[..|st[key]|] == st[key];
    }
  }

  class Grammar {
    var Rand: int -> int
    var value: Store
    var modifiers: map<string, ModifierFn>

    ghost predicate Valid()
      reads this
    {
      StacksNonEmpty(value)
    }

    /** What resolution reads from the grammar and never changes. */
    function Environment(): Env
      reads this
    {
      Env(modifiers, Rand)
    }

    /** `NewGrammar`, with the random source passed in instead of a
        time-seeded generator. */
    constructor (rand: int -> int)
      ensures Valid()
      ensures value == map[] && modifiers == map[] && Rand == rand
    {
      Rand := rand;
      value := map[];
      modifiers := map[];
    }

    method Lookup(key: string) returns (r: Option<Op>)
      requires Valid()
      ensures r == Top(value, key)
      ensures r.None? <==> key !in value
    {
      if key !in value {
        return None;
      }
      var rules := value[key];
      r := Some(rules[|rules| - 1]);
    }

    method Push(key: string, op: Op)
      requires Valid()
      modifies this`value
      ensures Valid()
      ensures value == Pushed(old(value), key, op)
    {
      if key !in value {
        value := value[key := [op]];
        return;
      }
      value := value[key := value[key] + [op]];
    }

    method Pop(key: string)
      requires Valid()
      modifies this`value
      ensures Valid()
      ensures value == Popped(old(value), key)
    {
      if key !in value || |value[key]| == 1 {
        return;
      }
      var rules := value[key];
      value := value[key := rules[..|rules| - 1]];
    }

    method Intn(n: int) returns (i: int)
      ensures i == Rand(n)
    {
      i := Rand(n);
    }

    method LookupModifier(key: string) returns (m: Option<ModifierFn>)
      ensures m.Some? <==> key in modifiers
      ensures m.Some? ==> m.value == modifiers[key]
    {
      if key in modifiers {
        return Some(modifiers[key]);
      }
      return None;
    }

    /** Registers `mod` under `name`, replacing any earlier one. */
    method AddModifier(name: string, mod: ModifierFn)
      modifies this`modifiers
      ensures modifiers == old(modifiers)[name := mod]
    {
      modifiers := modifiers[name := mod];
    }

    /** Registers a plain function (None being Go's nil) as a modifier. */
    method AddModifyFunc(name: string, fn: Option<ModFunc>)
      modifies this`modifiers
      ensures modifiers == old(modifiers)[name := ModifierFn(fn)]
    {
      AddModifier(name, ModifierFn(fn));
    }
  }
}
