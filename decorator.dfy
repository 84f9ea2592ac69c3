/**
 * The decorator pattern demo: a text manager with an empty-text fallback, and two
 * decorators that wrap the current text in `__` or `*` and can hand back a manager with
 * every `__` or `*` taken out of the text they captured when decorating.
 */
module Decorator {
  import opened Wrappers

  /** The fallback text of `setText`. */
  const DefaultText: string := "hello world"

  class TextManager {
    var text: string

    /** The constructor stores its argument as it is, even when it is empty. */
    constructor (text: string)
      ensures this.text == text
    {
      this.text := text;
    }

    /** `getText`: the text stored last. */
    function GetText(): string
      reads this
    {
      text
    }

    /** `setText`: a missing or empty text stores the fallback `'hello world'`. */
    method SetText(t: Option<string>)
      modifies this
      ensures GetText() == if t.None? || |t.value| == 0 then DefaultText else t.value
    {
      if t.None? || |t.value| == 0 {
        text := DefaultText;
        return;
      }
      text := t.value;
    }
  }

  // ---------------------------------------------------------------------------
  // text.replace(/__/g, '')

  /** A `__` starts at position `i` of `s`. */
  predicate DunderAt(s: string, i: int)
  {
    0 <= i && i + 1 < |s| && s[i] == '_' && s[i + 1] == '_'
  }

  predicate NoDunder(s: string)
  {
    forall i | 0 <= i < |s| :: !DunderAt(s, i)
  }

  /** Deletes every `__`, matched left to right without overlap. */
  function StripDunders(s: string): string
  {
    if |s| >= 2 && s[0] == '_' && s[1] == '_' then StripDunders(s[2..])
    else if s == [] then []
    else [s[0]] + StripDunders(s[1..])
  }

  /** After `StripDunders` no `__` is left. */
  lemma {:induction false} StripDundersLeavesNone(s: string)
    ensures NoDunder(StripDunders(s))
  {
    if |s| >= 2 && s[0] == '_' && s[1] == '_' {
      StripDundersLeavesNone(s[2..]);
    } else if s != [] {
      var rest := StripDunders(s[1..]);
      StripDundersLeavesNone(s[1..]);
      var r := StripDunders(s);
      assert r == [s[0]] + rest;
      forall i | 0 <= i < |r| ensures !DunderAt(r, i) {
        if i >= 1 {
          assert !DunderAt(rest, i - 1);
        }
      }
    }
  }

  /** `StripDunders` changes nothing exactly when there is no `__` to delete. */
  lemma {:induction false} StripDundersIdentity(s: string)
    ensures StripDunders(s) == s <==> NoDunder(s)
  {
    if NoDunder(s) {
      StripDundersKeepsClean(s);
    } else {
      StripDundersLeavesNone(s);
    }
  }

  lemma {:induction false} StripDundersKeepsClean(s: string)
    requires NoDunder(s)
    ensures StripDunders(s) == s
  {
    if s != [] {
      assert !DunderAt(s, 0);
      assert NoDunder(s[1..]) by {
        forall i | 0 <= i < |s[1..]| ensures !DunderAt(s[1..], i) {
          assert !DunderAt(s, i + 1);
        }
      }
      StripDundersKeepsClean(s[1..]);
    }
  }

  /** A trailing `__` is always deleted, whatever precedes it. */
  lemma {:induction false} StripDundersTrailing(s: string)
    ensures StripDunders(s + "__") == StripDunders(s)
  {
    if |s| >= 2 && s[0] == '_' && s[1] == '_' {
      assert (s + "__")[2..] == s[2..] + "__";
      StripDundersTrailing(s[2..]);
    } else if s == [] {
      assert StripDunders("") == "";
    } else if |s| == 1 {
      if s[0] == '_' {
        assert s + "__" == "___";
        assert StripDunders("___") == StripDunders("_");
      } else {
        assert (s + "__")[1..] == "__";
      }
    } else {
      assert (s + "__")[1..] == s[1..] + "__";
      StripDundersTrailing(s[1..]);
    }
  }

  /** Text without underscores passes through unchanged, in front of whatever follows. */
  lemma {:induction false} StripDundersPlainPrefix(a: string, b: string)
    requires '_' !in a
    ensures StripDunders(a + b) == a + StripDunders(b)
  {
    if a == [] {
      assert a + b == b;
    } else {
      assert (a + b)[1..] == a[1..] + b;
      StripDundersPlainPrefix(a[1..], b);
    }
  }

  /** Removing dunders from a dundered text is the same as removing them from the inner text. */
  lemma StripDundersUndoesDecoration(s: string)
    ensures StripDunders("__" + s + "__") == StripDunders(s)
  {
    assert ("__" + s + "__")[2..] == s + "__";
    StripDundersTrailing(s);
  }

  // ---------------------------------------------------------------------------
  // text.replace(/\*/g, '')

  /** Deletes every `*`. */
  function StripAsterisks(s: string): string
  {
    if s == [] then []
    else (if s[0] == '*' then [] else [s[0]]) + StripAsterisks(s[1..])
  }

  /** `StripAsterisks` keeps exactly the characters other than `*`, in order. */
  lemma {:induction false} StripAsterisksKeeps(s: string)
    ensures '*' !in StripAsterisks(s)
    ensures multiset(StripAsterisks(s)) == multiset(s)[('*') := 0]
  {
    if s != [] {
      StripAsterisksKeeps(s[1..]);
      assert s == [s[0]] + s[1..];
    }
  }

  lemma {:induction false} StripAsterisksAppend(a: string, b: string)
    ensures StripAsterisks(a + b) == StripAsterisks(a) + StripAsterisks(b)
  {
    if a == [] {
      assert a + b == b;
    } else {
      assert (a + b)[1..] == a[1..] + b;
      StripAsterisksAppend(a[1..], b);
    }
  }

  /** `StripAsterisks` changes nothing exactly when there is no `*` to delete. */
  lemma {:induction false} StripAsterisksIdentity(s: string)
    ensures StripAsterisks(s) == s <==> '*' !in s
  {
    StripAsterisksKeeps(s);
    if '*' !in s && s != [] {
      StripAsterisksIdentity(s[1..]);
    }
  }

  /** Removing asterisks from an asterisked text is the same as removing them from the inner text. */
  lemma StripAsterisksUndoesDecoration(s: string)
    ensures StripAsterisks("*" + s + "*") == StripAsterisks(s)
  {
    StripAsterisksAppend("*" + s, "*");
    StripAsterisksAppend("*", s);
  }

  // ---------------------------------------------------------------------------
  // decorators

  /**
   * `DunderDecorator`: captures `'__' + inner.getText() + '__'` when created and delegates
   * `getText`/`setText` to a new text manager holding that text.
   */
  class DunderDecorator {
    const text: string
    const base: TextManager

    constructor (inner: TextManager)
      ensures text == "__" + inner.text + "__"
      ensures fresh(base) && base.text == text
    {
      text := "__" + inner.GetText() + "__";
      base := new TextManager("__" + inner.GetText() + "__");
    }

    function GetText(): string
      reads base
    {
      base.GetText()
    }

    /** `setText` reaches the delegate; the captured text stays as it was. */
    method SetText(t: Option<string>)
      modifies base
      ensures GetText() == if t.None? || |t.value| == 0 then DefaultText else t.value
    {
      base.SetText(t);
    }

    /** `removeDunders`: a new manager holding the captured text without any `__`. */
    method RemoveDunders() returns (r: TextManager)
      ensures fresh(r) && r.text == StripDunders(text)
    {
      r := new TextManager(StripDunders(text));
    }
  }

  /**
   * `AsteriskDecorator`: captures `'*' + inner.getText() + '*'` when created and delegates
   * `getText`/`setText` to a new text manager holding that text.
   */
  class AsteriskDecorator {
    const text: string
    const base: TextManager

    constructor (inner: TextManager)
      ensures text == "*" + inner.text + "*"
      ensures fresh(base) && base.text == text
    {
      text := "*" + inner.GetText() + "*";
      base := new TextManager("*" + inner.GetText() + "*");
    }

    function GetText(): string
      reads base
    {
      base.GetText()
    }

    /** `setText` reaches the delegate; the captured text stays as it was. */
    method SetText(t: Option<string>)
      modifies base
      ensures GetText() == if t.None? || |t.value| == 0 then DefaultText else t.value
    {
      base.SetText(t);
    }

    /** `removeAsterisks`: a new manager holding the captured text without any `*`. */
    method RemoveAsterisks() returns (r: TextManager)
      ensures fresh(r) && r.text == StripAsterisks(text)
    {
      r := new TextManager(StripAsterisks(text));
    }
  }

  /**
   * The demo's nesting, for any inner text `t` without `_` or `*`: removing the dunders from
   * `__*__t__*__` gives `*t*`, and removing the asterisks from `**t**` gives `t`.
   */
  lemma {:induction false} DemoRoundTrip(t: string)
    requires '_' !in t && '*' !in t
    ensures StripDunders("__" + ("*" + ("__" + t + "__") + "*") + "__") == "*" + t + "*"
    ensures StripAsterisks("*" + ("*" + t + "*") + "*") == t
  {
    var inner := "*" + ("__" + t + "__") + "*";
    StripDundersUndoesDecoration(inner);
    assert inner == "*" + ("__" + t + "__" + "*");
    StripDundersPlainPrefix("*", "__" + t + "__" + "*");
    assert ("__" + t + "__" + "*")[2..] == t + ("__" + "*");
    StripDundersPlainPrefix(t, "__" + "*");
    assert ("__" + "*")[2..] == "*";
    StripDundersPlainPrefix("*", "");
    assert "*" + "" == "*";
    calc {
      StripDunders("__" + ("*" + ("__" + t + "__") + "*") + "__");
      StripDunders(inner);
      "*" + StripDunders("__" + t + "__" + "*");
      "*" + StripDunders(t + ("__" + "*"));
      "*" + (t + StripDunders("__" + "*"));
      "*" + (t + StripDunders("*"));
      "*" + t + "*";
    }
    StripAsterisksUndoesDecoration("*" + t + "*");
    StripAsterisksUndoesDecoration(t);
    StripAsterisksIdentity(t);
  }

  /** The demo's texts, for an inner text `t` without `_` or `*` such as `'hello world'`. */
  lemma DemoTexts(t: string)
    requires '_' !in t && '*' !in t
    ensures "__" + ("*" + ("__" + t + "__") + "*") + "__" == "__*__" + t + "__*__"
    ensures StripDunders("__*__" + t + "__*__") == "*" + t + "*"
    ensures StripAsterisks("*" + ("*" + t + "*") + "*") == t
  {
    DemoRoundTrip(t);
  }

  /** The demo's texts written out. */
  lemma HelloWorldTexts()
    ensures "__*__" + "hello world" + "__*__" == "__*__hello world__*__"
    ensures "*" + "hello world" + "*" == "*hello world*"
  {
  }

  /**
   * Demo step: `hello world` dundered, asterisked and dundered again; the wrapped manager
   * keeps its text.
   */
  method DecorateHelloWorld() returns (twiceDundered: DunderDecorator)
    ensures twiceDundered.text == "__*__hello world__*__"
    ensures twiceDundered.GetText() == "__*__hello world__*__"
  {
    var helloWorld := new TextManager("hello world");
    var dundered := new DunderDecorator(helloWorld);
    var asterisked := new AsteriskDecorator(dundered.base);
    twiceDundered := new DunderDecorator(asterisked.base);
    assert helloWorld.GetText() == "hello world";
    DemoTexts(helloWorld.text);
    HelloWorldTexts();
  }

  /**
   * The demo: `hello world` dundered, asterisked and dundered again prints
   * `__*__hello world__*__`; removing the dunders gives `*hello world*`; asterisking that and
   * removing the asterisks gives `hello world`.
   */
  method DecoratorUsage() returns (decorated: string, dunderless: string, plain: string)
    ensures decorated == "__*__hello world__*__"
    ensures dunderless == "*hello world*"
    ensures plain == "hello world"
  {
    var twiceDundered := DecorateHelloWorld();
    decorated := twiceDundered.GetText();

    DemoTexts("hello world");
    HelloWorldTexts();
    var dunderlessManager := twiceDundered.RemoveDunders();
    dunderless := dunderlessManager.GetText();

    var doubleAsterisked := new AsteriskDecorator(dunderlessManager);
    var asteriskless := doubleAsterisked.RemoveAsterisks();
    plain := asteriskless.GetText();
  }
}
