/**
 * `singleton.py`: two ways of constructing at most one instance per class,
 * a class decorator with one private dictionary per decorated class and a
 * metaclass whose dictionary is shared by every class that uses it. A class
 * is identified by a key of type `K`; calling a class with arguments of type
 * `A` allocates a new `Instance`.
 */
module Singleton {

  /** An object made by calling class `cls` with `args`. */
  class Instance<K, A> {
    const cls: K
    const args: A

    constructor (cls: K, args: A)
      ensures this.cls == cls && this.args == args
    {
      this.cls := cls;
      this.args := args;
    }
  }

  /** Every stored instance was made by calling the class it is stored under. */
  ghost predicate KeyedByClass<K, A>(instances: map<K, Instance<K, A>>) {
    forall c :: c in instances ==> instances[c].cls == c
  }

  /** Distinct classes map to distinct objects. */
  lemma DistinctClassesDistinctInstances<K, A>(instances: map<K, Instance<K, A>>, c1: K, c2: K)
    requires KeyedByClass(instances)
    requires c1 in instances && c2 in instances && c1 != c2
    ensures instances[c1] != instances[c2]
  {
  }

  /**
   * One application `singleton(cls)`: the returned `get_instance` closure
   * together with the `instances` dictionary it alone can see.
   */
  class SingletonDecorator<K(==), A> {
    const cls: K
    var instances: map<K, Instance<K, A>>

    /** The dictionary only ever holds the decorated class. */
    ghost predicate Valid()
      reads this
    {
      instances.Keys <= {cls} && KeyedByClass(instances)
    }

    /** Decorating `cls` starts with an empty dictionary of its own. */
    constructor (cls: K)
      ensures Valid() && this.cls == cls && instances == map[]
    {
      this.cls := cls;
      instances := map[];
    }

    /**
     * `get_instance(*args, **kwargs)`: the first call constructs
     * `cls(*args, **kwargs)` and stores it; every later call returns that same
     * object and ignores its arguments.
     */
    method GetInstance(args: A) returns (r: Instance<K, A>)
      requires Valid()
      modifies this`instances
      ensures Valid()
      ensures r.cls == cls && cls in instances && instances[cls] == r
      ensures cls in old(instances) ==> r == old(instances[cls]) && instances == old(instances)
      ensures cls !in old(instances) ==> fresh(r) && r.args == args && instances == old(instances)[cls := r]
    {
      if cls !in instances {
        var made := new Instance(cls, args);
        instances := instances[cls := made];
      }
      r := instances[cls];
    }
  }

  /** The `Singleton` metaclass: one `_instances` dictionary shared by all its classes. */
  class SingletonMeta<K(==), A> {
    var instances: map<K, Instance<K, A>>

    ghost predicate Valid()
      reads this
    {
      KeyedByClass(instances)
    }

    constructor ()
      ensures Valid() && instances == map[]
    {
      instances := map[];
    }

    /**
     * `Singleton.__call__(cls, *args, **kwargs)`: constructs and stores an
     * instance on the first call for `cls` and otherwise returns the stored
     * one. A call only ever adds the key `cls`; no entry is replaced or
     * removed.
     */
    method Call(cls: K, args: A) returns (r: Instance<K, A>)
      requires Valid()
      modifies this`instances
      ensures Valid()
      ensures r.cls == cls && cls in instances && instances[cls] == r
      ensures cls in old(instances) ==> r == old(instances[cls]) && instances == old(instances)
      ensures cls !in old(instances) ==> fresh(r) && r.args == args && instances == old(instances)[cls := r]
      ensures forall c :: c in old(instances) ==> c in instances && instances[c] == old(instances[c])
      ensures instances.Keys == old(instances.Keys) + {cls}
    {
      if cls !in instances {
        var made := new Instance(cls, args);
        instances := instances[cls := made];
      }
      r := instances[cls];
    }
  }

  /**
   * Two applications of the decorator: repeated calls through one of them
   * give the same object, made from the first call's arguments, and the
   * other application, with its own dictionary, makes an object of its own
   * even when it decorates the same class.
   */
  method DecoratorUse<K(==), A>(c1: K, c2: K, first: A, second: A)
    returns (x: Instance<K, A>, y: Instance<K, A>, z: Instance<K, A>)
    ensures x == y && y.args == first && y.cls == c1
    ensures z != x && z.cls == c2 && z.args == second
  {
    var d1 := new SingletonDecorator(c1);
    var d2 := new SingletonDecorator(c2);
    x := d1.GetInstance(first);
    y := d1.GetInstance(second);
    z := d2.GetInstance(second);
  }

  /**
   * Two classes under one metaclass: each class is constructed once and
   * distinct classes get distinct objects.
   */
  method MetaclassUse<K(==), A>(c1: K, c2: K, first: A, second: A)
    returns (x: Instance<K, A>, y: Instance<K, A>, z: Instance<K, A>)
    requires c1 != c2
    ensures x == z && z.args == first
    ensures x != y && y.cls == c2
  {
    var meta := new SingletonMeta<K, A>();
    x := meta.Call(c1, first);
    y := meta.Call(c2, first);
    z := meta.Call(c1, second);
  }
}
