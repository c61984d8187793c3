/**
  The Singleton base class (Singleton.php): one instance per concrete class,
  kept in a static map keyed by the class name and created, together with
  the hooks its `init` registers, on the first get_instance call only.
 */
module Singleton {
  import opened WordPress
  import FP = FeedPattern
  import PFP = PrivateFeedPattern
  import RC = RewriteController

  /** The concrete Singleton subclasses. */
  datatype ClassName = FeedClass(feed: FP.Feed) | RewriteControllerClass

  /** get_called_class(): the fully qualified PHP class name. */
  function QualifiedName(c: ClassName): string {
    match c
    case FeedClass(f) =>
      if f.Gunosy? then "Tarosky\\PaperBoy\\Delivery\\Gunosy"
      else if f.SmartNews? then "Tarosky\\PaperBoy\\Delivery\\SmartNews"
      else "Tarosky\\PaperBoy\\Delivery\\Line"
    case RewriteControllerClass => "Tarosky\\PaperBoy\\Controller\\RewriteController"
  }

  /** Different classes have different names, so they never share an entry. */
  lemma QualifiedNameInjective(a: ClassName, b: ClassName)
    ensures QualifiedName(a) == QualifiedName(b) ==> a == b
  {
    if a != b {
      assert |QualifiedName(a)| != |QualifiedName(b)|;
    }
  }

  /** The hooks the class's `init` registers, as dispatched from the constructor. */
  function InitHooks(c: ClassName): (hooks: seq<Hook>)
    ensures c.FeedClass? ==>
              && |hooks| == |FP.InitHooks(c.feed)| + (if FP.IsPrivate(c.feed) then 1 else 0)
              && hooks[..|FP.InitHooks(c.feed)|] == FP.InitHooks(c.feed)
    ensures c.RewriteControllerClass? ==> hooks == RC.InitHooks()
  {
    match c
    case FeedClass(f) => if FP.IsPrivate(f) then PFP.InitHooks(f) else FP.InitHooks(f)
    case RewriteControllerClass => RC.InitHooks()
  }

  /** An instance of a Singleton subclass. */
  class Instance {
    const cls: ClassName

    /** __construct: runs `init`, which registers the class's hooks. */
    constructor (cls: ClassName, table: HookTable)
      modifies table
      ensures this.cls == cls
      ensures table.hooks == old(table.hooks) + InitHooks(cls)
    {
      this.cls := cls;
      var hooks := InitHooks(cls);
      for i := 0 to |hooks|
        invariant table.hooks == old(table.hooks) + hooks[..i]
      {
        assert hooks[..i + 1] == hooks[..i] + [hooks[i]];
        table.Add(hooks[i]);
      }
      assert hooks[..|hooks|] == hooks;
    }
  }

  /** The static `$instances` array. */
  class Registry {
    var instances: map<string, Instance>

    /** Every entry is an instance of the class it is filed under. */
    ghost predicate Valid()
      reads this
    {
      forall k :: k in instances ==> QualifiedName(instances[k].cls) == k
    }

    constructor ()
      ensures instances == map[] && Valid()
    {
      instances := map[];
    }

    /** get_instance: the stored instance of `c`, created (running `init`) and
        stored on the first call only; other entries are left alone. */
    method GetInstance(c: ClassName, table: HookTable) returns (inst: Instance)
      requires Valid()
      modifies this, table
      ensures Valid()
      ensures QualifiedName(c) in instances && instances[QualifiedName(c)] == inst
      ensures inst.cls == c
      ensures QualifiedName(c) in old(instances) ==>
                inst == old(instances)[QualifiedName(c)]
                && instances == old(instances) && table.hooks == old(table.hooks)
      ensures QualifiedName(c) !in old(instances) ==>
                fresh(inst)
                && instances == old(instances)[QualifiedName(c) := inst]
                && table.hooks == old(table.hooks) + InitHooks(c)
    {
      var name := QualifiedName(c);
      if name !in instances {
        var created := new Instance(c, table);
        instances := instances[name := created];
      }
      inst := instances[name];
      QualifiedNameInjective(inst.cls, c);
    }
  }

  /** Two get_instance calls for the same class give the same object, and only
      the first registers hooks. */
  method GetInstanceTwice(registry: Registry, table: HookTable, c: ClassName) returns (a: Instance, b: Instance)
    requires registry.Valid()
    modifies registry, table
    ensures a == b
    ensures |registry.instances.Keys| <= |old(registry.instances).Keys| + 1
    ensures QualifiedName(c) !in old(registry.instances) ==> table.hooks == old(table.hooks) + InitHooks(c)
    ensures QualifiedName(c) in old(registry.instances) ==> table.hooks == old(table.hooks)
  {
    a := registry.GetInstance(c, table);
    b := registry.GetInstance(c, table);
  }
}
