/**
 * The strategy pattern demo: a search context that picks its search algorithm from the
 * shape of the data it is given (a list of strings, one string, or an object's entries)
 * and runs it with its search string.
 */
module Strategy {
  import opened Wrappers

  // ---------------------------------------------------------------------------
  // String.prototype.includes

  /** `q` occurs in `s` starting at position `i`. */
  predicate OccursAt(s: string, q: string, i: int)
  {
    0 <= i && i + |q| <= |s| && s[i..i + |q|] == q
  }

  /** `s.includes(q)`: `q` is a prefix of `s` or occurs in its tail. */
  function Includes(s: string, q: string): bool
  {
    (|q| <= |s| && s[..|q|] == q) || (s != [] && Includes(s[1..], q))
  }

  /** Every position `Includes` reports is a real occurrence. */
  lemma {:induction false} IncludesSound(s: string, q: string)
    requires Includes(s, q)
    ensures exists i :: OccursAt(s, q, i)
  {
    if |q| <= |s| && s[..|q|] == q {
      assert OccursAt(s, q, 0);
    } else {
      IncludesSound(s[1..], q);
      var i :| OccursAt(s[1..], q, i);
      assert s[i + 1..i + 1 + |q|] == s[1..][i..i + |q|];
      assert OccursAt(s, q, i + 1);
    }
  }

  /** Every occurrence is found by `Includes`. */
  lemma {:induction false} IncludesComplete(s: string, q: string, i: int)
    requires OccursAt(s, q, i)
    ensures Includes(s, q)
    decreases i
  {
    if i == 0 {
      assert s[..|q|] == q;
    } else {
      assert s[1..][i - 1..i - 1 + |q|] == s[i..i + |q|];
      IncludesComplete(s[1..], q, i - 1);
    }
  }

  /** `Includes` holds exactly when `q` occurs in `s` at some position. */
  lemma IncludesIff(s: string, q: string)
    ensures Includes(s, q) <==> exists i :: OccursAt(s, q, i)
  {
    if Includes(s, q) {
      IncludesSound(s, q);
    }
    if exists i :: OccursAt(s, q, i) {
      var i :| OccursAt(s, q, i);
      IncludesComplete(s, q, i);
    }
  }

  /** A string includes each of its prefixes. */
  lemma IncludesPrefix(q: string, t: string)
    ensures Includes(q + t, q)
  {
    assert (q + t)[..|q|] == q;
  }

  /** A string shorter than `q` does not include it. */
  lemma {:induction false} ShorterExcludes(s: string, q: string)
    requires |s| < |q|
    ensures !Includes(s, q)
  {
    if s != [] {
      ShorterExcludes(s[1..], q);
    }
  }

  // ---------------------------------------------------------------------------
  // the three strategies

  /** An object's entries, in `Object.entries` order. */
  type Entries = seq<(string, string)>

  /** `searchArrayStrings`: the elements that include `q`, in order. */
  function SearchArray(data: seq<string>, q: string): (r: seq<string>)
    ensures |r| <= |data|
  {
    if data == [] then []
    else (if Includes(data[0], q) then [data[0]] else []) + SearchArray(data[1..], q)
  }

  /** The array search keeps exactly the elements that include `q`. */
  lemma {:induction false} SearchArrayMembers(data: seq<string>, q: string)
    ensures forall x :: x in SearchArray(data, q) <==> x in data && Includes(x, q)
  {
    if data != [] {
      SearchArrayMembers(data[1..], q);
      assert data == [data[0]] + data[1..];
    }
  }

  /** `searchObjectStrings`: the `[key, value]` entries whose value includes `q`, in order. */
  function SearchObject(data: Entries, q: string): (r: Entries)
    ensures |r| <= |data|
  {
    if data == [] then []
    else (if Includes(data[0].1, q) then [data[0]] else []) + SearchObject(data[1..], q)
  }

  /** The object search keeps exactly the entries whose value includes `q`. */
  lemma {:induction false} SearchObjectMembers(data: Entries, q: string)
    ensures forall e :: e in SearchObject(data, q) <==> e in data && Includes(e.1, q)
  {
    if data != [] {
      SearchObjectMembers(data[1..], q);
      assert data == [data[0]] + data[1..];
    }
  }

  /** Filtering a concatenation filters each part: so the order of the data is kept. */
  lemma {:induction false} SearchArrayAppend(a: seq<string>, b: seq<string>, q: string)
    ensures SearchArray(a + b, q) == SearchArray(a, q) + SearchArray(b, q)
  {
    if a == [] {
      assert a + b == b;
    } else {
      assert (a + b)[0] == a[0];
      assert (a + b)[1..] == a[1..] + b;
      SearchArrayAppend(a[1..], b, q);
      var head := if Includes(a[0], q) then [a[0]] else [];
      calc {
        SearchArray(a + b, q);
        head + SearchArray(a[1..] + b, q);
        head + (SearchArray(a[1..], q) + SearchArray(b, q));
        (head + SearchArray(a[1..], q)) + SearchArray(b, q);
      }
    }
  }

  lemma {:induction false} SearchObjectAppend(a: Entries, b: Entries, q: string)
    ensures SearchObject(a + b, q) == SearchObject(a, q) + SearchObject(b, q)
  {
    if a == [] {
      assert a + b == b;
    } else {
      assert (a + b)[0] == a[0];
      assert (a + b)[1..] == a[1..] + b;
      SearchObjectAppend(a[1..], b, q);
      var head := if Includes(a[0].1, q) then [a[0]] else [];
      calc {
        SearchObject(a + b, q);
        head + SearchObject(a[1..] + b, q);
        head + (SearchObject(a[1..], q) + SearchObject(b, q));
        (head + SearchObject(a[1..], q)) + SearchObject(b, q);
      }
    }
  }

  /** `searchInString`: whether `q` occurs in the string. */
  function SearchString(data: string, q: string): (found: bool)
    ensures found <==> exists i :: OccursAt(data, q, i)
  {
    IncludesIff(data, q);
    Includes(data, q)
  }

  // ---------------------------------------------------------------------------
  // the context

  /** The data a context can hold. */
  datatype Data = ArrayData(items: seq<string>) | StringData(str: string) | ObjectData(entries: Entries)

  datatype Algorithm = SearchArrayStrings | SearchInString | SearchObjectStrings

  /** The outcome of a search, shaped like the strategy's return value. */
  datatype Found = Items(items: seq<string>) | Flag(found: bool) | Pairs(entries: Entries)

  /** The algorithm `setData` chooses for each shape of data. */
  function AlgorithmFor(d: Data): (a: Algorithm)
    ensures a == SearchArrayStrings <==> d.ArrayData?
    ensures a == SearchInString <==> d.StringData?
    ensures a == SearchObjectStrings <==> d.ObjectData?
  {
    match d
    case ArrayData(_) => SearchArrayStrings
    case StringData(_) => SearchInString
    case ObjectData(_) => SearchObjectStrings
  }

  class SearchContext {
    var strategy: Option<Algorithm>
    var data: Option<Data>
    var searchString: string

    /** The strategy always matches the data: both unset, or the one chosen for the data. */
    ghost predicate Valid()
      reads this
    {
      if data.None? then strategy.None? else strategy == Some(AlgorithmFor(data.value))
    }

    /** A new context has no strategy and no data. */
    constructor (searchString: string)
      ensures Valid()
      ensures strategy == None && data == None && this.searchString == searchString
    {
      strategy := None;
      data := None;
      this.searchString := searchString;
    }

    /**
     * `setData`: the data already held changes nothing (on a new context this includes
     * `null`); other `null` data throws `'Data is required'` and changes nothing; any other
     * data is stored and selects its strategy.
     */
    method SetData(d: Option<Data>) returns (r: Result<()>)
      requires Valid()
      modifies this`data, this`strategy
      ensures Valid()
      ensures d == old(data) ==> r.Ok? && data == old(data) && strategy == old(strategy)
      ensures d != old(data) && d.None? ==> r == Err("Data is required") && data == old(data) && strategy == old(strategy)
      ensures d != old(data) && d.Some? ==> r.Ok? && data == d && strategy == Some(AlgorithmFor(d.value))
    {
      if d == data {
        return Ok(());
      }
      if d.None? {
        return Err("Data is required");
      }
      data := d;
      match d.value {
        case ArrayData(_) => strategy := Some(SearchArrayStrings);
        case StringData(_) => strategy := Some(SearchInString);
        case ObjectData(_) => strategy := Some(SearchObjectStrings);
      }
      r := Ok(());
    }

    /** `setSearchString`. */
    method SetSearchString(q: string)
      modifies this`searchString
      ensures searchString == q
    {
      searchString := q;
    }

    /**
     * `search`: runs the chosen strategy on the data with the search string. Before any
     * data is set there is no strategy and the call throws.
     */
    function Search(): (r: Result<Found>)
      reads this
      requires Valid()
      ensures r.Err? <==> data.None?
      ensures data.Some? && data.value.ArrayData? ==> r == Ok(Items(SearchArray(data.value.items, searchString)))
      ensures data.Some? && data.value.StringData? ==> r == Ok(Flag(SearchString(data.value.str, searchString)))
      ensures data.Some? && data.value.ObjectData? ==> r == Ok(Pairs(SearchObject(data.value.entries, searchString)))
    {
      match strategy
      case None => Err("Cannot read properties of null (reading 'search')")
      case Some(SearchArrayStrings) => Ok(Items(SearchArray(data.value.items, searchString)))
      case Some(SearchInString) => Ok(Flag(SearchString(data.value.str, searchString)))
      case Some(SearchObjectStrings) => Ok(Pairs(SearchObject(data.value.entries, searchString)))
    }
  }

  /** The demo: searching for `'hello'` in the array, then the object, then the string. */
  method StrategyUsage() returns (inArray: Result<Found>, inObject: Result<Found>, inString: Result<Found>)
    ensures inArray == Ok(Items(["hello", "hello world"]))
    ensures inObject == Ok(Pairs([("key1", "hello"), ("key5", "hello world")]))
    ensures inString == Ok(Flag(true))
  {
    var myArray := ["hello", "world", "foo", "bar", "hello world"];
    var myObject := [("key1", "hello"), ("key2", "world"), ("key3", "foo"), ("key4", "bar"), ("key5", "hello world")];
    var myString := "hello world foo bar";
    DemoSearches();

    var searchContext := new SearchContext("hello");
    var r := searchContext.SetData(Some(ArrayData(myArray)));
    inArray := searchContext.Search();
    r := searchContext.SetData(Some(ObjectData(myObject)));
    inObject := searchContext.Search();
    r := searchContext.SetData(Some(StringData(myString)));
    inString := searchContext.Search();
  }

  /** The words of the demo that do not include `'hello'`. */
  lemma DemoMisses()
    ensures !Includes("world", "hello") && !Includes("foo", "hello") && !Includes("bar", "hello")
  {
    ShorterExcludes("foo", "hello");
    ShorterExcludes("bar", "hello");
    ShorterExcludes("orld", "hello");
    assert "world"[..5] != "hello" by { assert "world"[0] != "hello"[0]; }
    assert "world"[1..] == "orld";
  }

  /** The words of the demo that include `'hello'`. */
  lemma DemoHits()
    ensures Includes("hello", "hello") && Includes("hello world", "hello") && Includes("hello world foo bar", "hello")
  {
    IncludesPrefix("hello", "");
    assert "hello" + "" == "hello";
    IncludesPrefix("hello", " world");
    IncludesPrefix("hello", " world foo bar");
  }

  /** The demo's search of `myArray` for `'hello'`. */
  lemma DemoArraySearch()
    ensures SearchArray(["hello", "world", "foo", "bar", "hello world"], "hello") == ["hello", "hello world"]
  {
    DemoHits();
    DemoMisses();
    var q := "hello";
    var a := ["hello", "world", "foo", "bar", "hello world"];
    assert SearchArray(a[4..], q) == ["hello world"] by { assert a[4..][1..] == []; }
    assert SearchArray(a[3..], q) == ["hello world"] by { assert a[3..][1..] == a[4..]; }
    assert SearchArray(a[2..], q) == ["hello world"] by { assert a[2..][1..] == a[3..]; }
    assert SearchArray(a[1..], q) == ["hello world"] by { assert a[1..][1..] == a[2..]; }
  }

  /** The demo's search of `myObject` for `'hello'`. */
  lemma DemoObjectSearch()
    ensures SearchObject([("key1", "hello"), ("key2", "world"), ("key3", "foo"), ("key4", "bar"), ("key5", "hello world")], "hello")
         == [("key1", "hello"), ("key5", "hello world")]
  {
    DemoHits();
    DemoMisses();
    var q := "hello";
    var o := [("key1", "hello"), ("key2", "world"), ("key3", "foo"), ("key4", "bar"), ("key5", "hello world")];
    assert SearchObject(o[4..], q) == [("key5", "hello world")] by { assert o[4..][1..] == []; }
    assert SearchObject(o[3..], q) == [("key5", "hello world")] by { assert o[3..][1..] == o[4..]; }
    assert SearchObject(o[2..], q) == [("key5", "hello world")] by { assert o[2..][1..] == o[3..]; }
    assert SearchObject(o[1..], q) == [("key5", "hello world")] by { assert o[1..][1..] == o[2..]; }
  }

  /** The demo's three searches for `'hello'`. */
  lemma DemoSearches()
    ensures SearchArray(["hello", "world", "foo", "bar", "hello world"], "hello") == ["hello", "hello world"]
    ensures SearchObject([("key1", "hello"), ("key2", "world"), ("key3", "foo"), ("key4", "bar"), ("key5", "hello world")], "hello")
         == [("key1", "hello"), ("key5", "hello world")]
    ensures SearchString("hello world foo bar", "hello")
  {
    DemoArraySearch();
    DemoObjectSearch();
    DemoHits();
  }
}
