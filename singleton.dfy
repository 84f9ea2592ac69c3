/**
 * The singleton pattern demo: a closure-held text with a type-checked setter, and a
 * constructor that creates its one instance on first use and returns it ever after.
 */
module SingletonPattern {
  import opened Wrappers

  /** A JavaScript value handed to `setText`: a string, or a value of any other type. */
  datatype Value = StringValue(s: string) | OtherValue

  /** `mySingleton3`: the text captured by its closure, read by `getText` and written by `setText`. */
  class TextSingleton {
    var text: string

    /** The text starts as `'hello world'`. */
    constructor ()
      ensures text == "hello world"
    {
      text := "hello world";
    }

    /** `getText`. */
    function GetText(): string
      reads this
    {
      text
    }

    /** `setText`: a string replaces the text; any other value throws and changes nothing. */
    method SetText(v: Value) returns (r: Result<()>)
      modifies this
      ensures v.StringValue? ==> r.Ok? && text == v.s
      ensures v.OtherValue? ==> r == Err("Text must be a string") && text == old(text)
    {
      if v.OtherValue? {
        return Err("Text must be a string");
      }
      text := v.s;
      r := Ok(());
    }
  }

  /** The single instance, with its `message` accessor pair. */
  class Instance {
    var message: string

    constructor ()
      ensures message == "this worked"
    {
      message := "this worked";
    }

    /** The `message` getter. */
    function Message(): string
      reads this
    {
      message
    }

    /** The `message` setter: it only warns, and then stores the value. */
    method SetMessage(value: string)
      modifies this
      ensures message == value
    {
      message := value;
    }
  }

  /** `Singleton.prototype`, where the instance is kept once it exists. */
  class SingletonPrototype {
    var instance: Instance?

    /** Before the first `new Singleton()` there is no instance. */
    constructor ()
      ensures instance == null
    {
      instance := null;
    }

    /**
     * `new Singleton()`: the first call creates the instance with message `'this worked'`;
     * every later call returns that same instance and creates nothing.
     */
    method New() returns (inst: Instance)
      modifies this
      ensures old(instance) == null ==> fresh(inst) && inst.message == "this worked"
      ensures old(instance) != null ==> inst == old(instance)
      ensures instance == inst
    {
      if instance == null {
        instance := new Instance();
      }
      inst := instance;
    }
  }

  /**
   * The demo: `getText` is `'hello world'`, then `'goodbye world'`; two `new Singleton()` calls
   * give the same object, so a message set through one reads back through the other.
   */
  method SingletonUsage() returns (initial: string, updated: string, same: bool, message: string)
    ensures initial == "hello world" && updated == "goodbye world"
    ensures same && message == "another message"
  {
    var mySingleton3 := new TextSingleton();
    initial := mySingleton3.GetText();
    var r := mySingleton3.SetText(StringValue("goodbye world"));
    updated := mySingleton3.GetText();

    var proto := new SingletonPrototype();
    var constructorSingleton := proto.New();
    var constructorSingleton2 := proto.New();
    same := constructorSingleton == constructorSingleton2;
    constructorSingleton.SetMessage("another message");
    message := constructorSingleton2.Message();
  }
}
