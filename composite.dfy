/**
 * The composite pattern demo: sentences (leaves) and paragraphs (composites) whose
 * `logText` prints the text of every sentence depth first, with a `' '` line before and
 * after each nested paragraph. Paragraphs hold their children by reference, so a
 * paragraph added to another one stays shared: a later `remove` or added sentence shows in
 * the parent. A paragraph added to a nested paragraph grows only that paragraph's `Repr`,
 * so its parents no longer satisfy `Valid()`.
 */
module Composite {
  import opened Wrappers

  /** `Sentence`: a leaf holding one text; it has no children and ignores `add`/`remove`. */
  class Sentence {
    const text: string

    constructor (text: string)
      ensures this.text == text
    {
      this.text := text;
    }

    /** `logText` of a sentence: its text, on one line. */
    function LogText(): (lines: seq<string>)
      ensures lines == [text]
    {
      [text]
    }

    /** `add` on a leaf only reports that it cannot add; the sentence does not change. */
    method Add(child: Child)
    {
    }

    /** `remove` on a leaf only reports that leaves have no children. */
    method Remove(i: int)
    {
    }

    /** `getChild` on a leaf: there is no child to return (`undefined`). */
    function GetChild(i: int): (r: Option<Child>)
      ensures r.None?
    {
      None
    }

    /** `getChildren` on a leaf: the empty list. */
    function GetChildren(): (r: seq<Child>)
      ensures |r| == 0
    {
      []
    }
  }

  /** A child of a paragraph: a sentence or another paragraph (the source tests `instanceof Sentence`). */
  datatype Child = SentenceChild(s: Sentence) | ParagraphChild(p: Paragraph)

  /** A child paragraph lies, with its footprint, inside `fp`. */
  ghost predicate ChildOk(c: Child, fp: set<object>)
    reads fp
  {
    c.ParagraphChild? ==> c.p in fp && c.p.Repr <= fp
  }

  /**
   * The output of `logText` over the children `cs`, each paragraph among them valid and
   * inside the footprint `fp`. A sentence gives its text; a paragraph gives `' '`, its own
   * output, and `' '` again.
   */
  function LinesOf(cs: seq<Child>, ghost fp: set<object>): seq<string>
    reads fp
    requires forall i | 0 <= i < |cs| :: ChildOk(cs[i], fp) && (cs[i].ParagraphChild? ==> cs[i].p.Valid())
    decreases fp, 2, |cs|
  {
    if cs == [] then []
    else
      var head :=
        match cs[0]
        case SentenceChild(s) => s.LogText()
        case ParagraphChild(p) =>
          assert ChildOk(cs[0], fp);
          assert p.Repr < fp || p.Repr == fp;
          [" "] + p.LogText() + [" "];
      head + LinesOf(cs[1..], fp)
  }

  class Paragraph {
    var children: seq<Child>
    /** This paragraph and every paragraph reachable through its children. */
    ghost var Repr: set<object>

    /** Every nested paragraph is valid, lies inside `Repr` and does not reach back to this one. */
    ghost predicate Valid()
      reads this, Repr
      decreases Repr, 0
    {
      && this in Repr
      && forall i | 0 <= i < |children| :: children[i].ParagraphChild? ==>
           && children[i].p in Repr
           && children[i].p.Repr <= Repr
           && this !in children[i].p.Repr
           && children[i].p.Valid()
    }

    /** A new paragraph has no children. */
    constructor ()
      ensures Valid() && fresh(Repr - {this}) && Repr == {this}
      ensures children == []
    {
      children := [];
      Repr := {this};
    }

    /** `logText`: the lines printed, depth first, in child order. */
    function LogText(): seq<string>
      reads this, Repr
      requires Valid()
      decreases Repr, 1, 0
    {
      LinesOf(children, Repr - {this})
    }

    /**
     * `add`: appends `child` at the end. A nested paragraph must be valid and must not
     * reach this one (no cycles); its footprint joins this one's.
     */
    method Add(child: Child)
      requires Valid()
      requires child.ParagraphChild? ==> child.p.Valid() && this !in child.p.Repr
      modifies this
      ensures Valid()
      ensures children == old(children) + [child]
      ensures Repr == old(Repr) + (if child.ParagraphChild? then child.p.Repr else {})
      ensures LogText() == old(LogText()) + LinesOf([child], Repr - {this})
    {
      ghost var oldFp := Repr - {this};
      ghost var oldChildren := children;
      children := children + [child];
      if child.ParagraphChild? {
        Repr := Repr + child.p.Repr;
      }
      ghost var fp := Repr - {this};
      assert forall i | 0 <= i < |oldChildren| :: children[i] == oldChildren[i];
      assert LinesOf(oldChildren, oldFp) == old(LinesOf(children, Repr - {this}));
      LinesOfFootprint(oldChildren, oldFp, fp);
      LinesOfAppend(oldChildren, [child], fp);
    }

    /**
     * `remove(i)`: `splice(i, 1)` deletes the child at `i` and shifts the later ones down;
     * an index past the end deletes nothing. The footprint is kept as it was.
     */
    method Remove(i: nat)
      requires Valid()
      modifies this`children
      ensures Valid()
      ensures children == if i < |old(children)| then old(children[..i] + children[i + 1..]) else old(children)
      ensures LogText() ==
        if i < |old(children)|
        then old(LinesOf(children[..i], Repr - {this}) + LinesOf(children[i + 1..], Repr - {this}))
        else old(LogText())
    {
      if i < |children| {
        var before, after := children[..i], children[i + 1..];
        assert LinesOf(before, Repr - {this}) == old(LinesOf(children[..i], Repr - {this}));
        assert LinesOf(after, Repr - {this}) == old(LinesOf(children[i + 1..], Repr - {this}));
        children := before + after;
        LinesOfAppend(before, after, Repr - {this});
      }
    }

    /** `getChild(i)`: `null` outside the children, the child at `i` otherwise. */
    function GetChild(i: int): (r: Option<Child>)
      reads this
      ensures r.None? <==> i < 0 || i >= |children|
      ensures r.Some? ==> 0 <= i < |children| && r.value == children[i]
    {
      if i < 0 || i >= |children| then None else Some(children[i])
    }

    /** `getChildren`: the children, in the order they were added. */
    function GetChildren(): (r: seq<Child>)
      reads this
      ensures |r| == |children| && forall i | 0 <= i < |r| :: GetChild(i) == Some(r[i])
    {
      children
    }
  }

  /** The output over `cs` does not depend on which large enough footprint is named. */
  lemma {:induction false} LinesOfFootprint(cs: seq<Child>, fp1: set<object>, fp2: set<object>)
    requires forall i | 0 <= i < |cs| :: ChildOk(cs[i], fp1) && (cs[i].ParagraphChild? ==> cs[i].p.Valid())
    requires fp1 <= fp2
    ensures forall i | 0 <= i < |cs| :: ChildOk(cs[i], fp2) && (cs[i].ParagraphChild? ==> cs[i].p.Valid())
    ensures LinesOf(cs, fp1) == LinesOf(cs, fp2)
  {
    if cs != [] {
      LinesOfFootprint(cs[1..], fp1, fp2);
    }
  }

  /** The output over two runs of children is the output over the first followed by that over the second. */
  lemma {:induction false} LinesOfAppend(a: seq<Child>, b: seq<Child>, fp: set<object>)
    requires forall i | 0 <= i < |a| :: ChildOk(a[i], fp) && (a[i].ParagraphChild? ==> a[i].p.Valid())
    requires forall i | 0 <= i < |b| :: ChildOk(b[i], fp) && (b[i].ParagraphChild? ==> b[i].p.Valid())
    ensures forall i | 0 <= i < |a + b| :: ChildOk((a + b)[i], fp) && ((a + b)[i].ParagraphChild? ==> (a + b)[i].p.Valid())
    ensures LinesOf(a + b, fp) == LinesOf(a, fp) + LinesOf(b, fp)
  {
    if a == [] {
      assert a + b == b;
    } else {
      assert (a + b)[1..] == a[1..] + b;
      LinesOfAppend(a[1..], b, fp);
    }
  }

  /** A sentence child contributes exactly its text. */
  lemma LinesOfSentence(s: Sentence, fp: set<object>)
    ensures LinesOf([SentenceChild(s)], fp) == [s.text]
  {
    assert [SentenceChild(s)][1..] == [];
  }

  /** A paragraph child contributes its own output between two `' '` lines. */
  lemma LinesOfParagraph(p: Paragraph, fp: set<object>)
    requires p in fp && p.Repr <= fp && p.Valid()
    ensures LinesOf([ParagraphChild(p)], fp) == [" "] + p.LogText() + [" "]
  {
    assert [ParagraphChild(p)][1..] == [];
  }

  /** The demo's first output, assembled from the super paragraph's output before and the inner paragraph's. */
  lemma FirstDemoLines(before: seq<string>, inner: seq<string>, after: seq<string>)
    requires before == [" "] + ["Hello world", "This is a sentence.", "It is contained in a paragraph."] + [" "] +
                       ["This is a sentence in the super paragraph."]
    requires inner == ["This is a sentence in another paragraph.", "This is another sentence in another paragraph."]
    requires after == before + [" "] + inner + [" "]
    ensures after == [" ", "Hello world", "This is a sentence.", "It is contained in a paragraph.", " ",
                      "This is a sentence in the super paragraph.",
                      " ", "This is a sentence in another paragraph.", "This is another sentence in another paragraph.", " "]
  {
  }

  /** The output of a paragraph whose children are a paragraph, a sentence and a paragraph. */
  lemma ThreeChildLines(p: Paragraph, a: Paragraph, s: Sentence, b: Paragraph)
    requires p.Valid() && a.Valid() && b.Valid()
    requires p.children == [ParagraphChild(a), SentenceChild(s), ParagraphChild(b)]
    ensures p.LogText() == [" "] + a.LogText() + [" ", s.text, " "] + b.LogText() + [" "]
  {
    var fp := p.Repr - {p};
    assert p.children[0].p == a && p.children[2].p == b;
    assert ChildOk(ParagraphChild(a), fp) && ChildOk(ParagraphChild(b), fp);
    assert p.children == [ParagraphChild(a)] + [SentenceChild(s)] + [ParagraphChild(b)];
    LinesOfAppend([ParagraphChild(a)], [SentenceChild(s)], fp);
    LinesOfAppend([ParagraphChild(a), SentenceChild(s)], [ParagraphChild(b)], fp);
    LinesOfParagraph(a, fp);
    LinesOfSentence(s, fp);
    LinesOfParagraph(b, fp);
    assert [ParagraphChild(a)] + [SentenceChild(s)] == [ParagraphChild(a), SentenceChild(s)];
    assert [ParagraphChild(a), SentenceChild(s)] + [ParagraphChild(b)] == p.children;
    assert p.LogText() == ([" "] + a.LogText() + [" "]) + [s.text] + ([" "] + b.LogText() + [" "]);
  }

  /** The demo's second output: the inner paragraph has lost its second sentence. */
  lemma SecondDemoLines(first: seq<string>, inner: seq<string>, after: seq<string>)
    requires first == ["Hello world", "This is a sentence.", "It is contained in a paragraph."]
    requires inner == ["This is a sentence in another paragraph."]
    requires after == [" "] + first + [" ", "This is a sentence in the super paragraph.", " "] + inner + [" "]
    ensures after == [" ", "Hello world", "This is a sentence.", "It is contained in a paragraph.", " ",
                      "This is a sentence in the super paragraph.",
                      " ", "This is a sentence in another paragraph.", " "]
  {
  }

  /** The demo's third output: the super paragraph has lost its own sentence. */
  lemma ThirdDemoLines(first: seq<string>, inner: seq<string>, after: seq<string>)
    requires first == ["Hello world", "This is a sentence.", "It is contained in a paragraph."]
    requires inner == ["This is a sentence in another paragraph."]
    requires after == [" "] + first + [" "] + [" "] + inner + [" "]
    ensures after == [" ", "Hello world", "This is a sentence.", "It is contained in a paragraph.", " ",
                      " ", "This is a sentence in another paragraph.", " "]
  {
  }

  /** Demo step: `p.add(new Sentence(text))`. */
  method AddSentence(p: Paragraph, text: string) returns (s: Sentence)
    requires p.Valid()
    modifies p
    ensures fresh(s) && s.text == text
    ensures p.Valid() && p.Repr == old(p.Repr)
    ensures p.children == old(p.children) + [SentenceChild(s)]
    ensures p.LogText() == old(p.LogText()) + [text]
  {
    s := new Sentence(text);
    p.Add(SentenceChild(s));
    LinesOfSentence(s, p.Repr - {p});
  }

  /** Demo step: `p.add(q)` for a paragraph `q` that does not reach `p`. */
  method AddParagraph(p: Paragraph, q: Paragraph)
    requires p.Valid() && q.Valid() && p !in q.Repr
    modifies p
    ensures p.Valid() && p.Repr == old(p.Repr) + q.Repr
    ensures p.children == old(p.children) + [ParagraphChild(q)]
    ensures p.LogText() == old(p.LogText()) + [" "] + q.LogText() + [" "]
  {
    p.Add(ParagraphChild(q));
    LinesOfParagraph(q, p.Repr - {p});
  }

  /** Demo step: the first paragraph, three sentences added in turn. */
  method FirstParagraph() returns (p: Paragraph)
    ensures fresh(p) && p.Valid() && p.Repr == {p}
    ensures p.LogText() == ["Hello world", "This is a sentence.", "It is contained in a paragraph."]
  {
    p := new Paragraph();
    var s1 := AddSentence(p, "Hello world");
    var s2 := AddSentence(p, "This is a sentence.");
    var s3 := AddSentence(p, "It is contained in a paragraph.");
  }

  /** Demo step: the other paragraph, two sentences added in turn. */
  method AnotherParagraph() returns (p: Paragraph)
    ensures fresh(p) && p.Valid() && p.Repr == {p}
    ensures |p.children| == 2 && p.children[0].SentenceChild?
    ensures p.children[0].s.text == "This is a sentence in another paragraph."
    ensures p.LogText() == ["This is a sentence in another paragraph.", "This is another sentence in another paragraph."]
  {
    p := new Paragraph();
    var s5 := AddSentence(p, "This is a sentence in another paragraph.");
    var s6 := AddSentence(p, "This is another sentence in another paragraph.");
  }

  /** Demo step: the super paragraph holding `paragraph` and then a sentence of its own. */
  method SuperParagraph(paragraph: Paragraph) returns (superParagraph: Paragraph, s4: Sentence)
    requires paragraph.Valid() && paragraph.Repr == {paragraph}
    ensures fresh(superParagraph) && superParagraph.Valid()
    ensures superParagraph.Repr == {superParagraph, paragraph}
    ensures superParagraph.children == [ParagraphChild(paragraph), SentenceChild(s4)]
    ensures s4.text == "This is a sentence in the super paragraph."
    ensures superParagraph.LogText() == [" "] + paragraph.LogText() + [" "] + [s4.text]
  {
    superParagraph := new Paragraph();
    AddParagraph(superParagraph, paragraph);
    s4 := AddSentence(superParagraph, "This is a sentence in the super paragraph.");
  }

  /**
   * The first part of the demo: a paragraph of three sentences and another of two, nested
   * in a super paragraph around one sentence of its own.
   */
  method BuildDemo() returns (superParagraph: Paragraph, paragraph: Paragraph, s4: Sentence, anotherParagraph: Paragraph)
    ensures fresh(superParagraph) && fresh(paragraph) && fresh(anotherParagraph)
    ensures superParagraph.Valid() && paragraph.Valid() && anotherParagraph.Valid()
    ensures superParagraph != paragraph && superParagraph != anotherParagraph && paragraph != anotherParagraph
    ensures paragraph.Repr == {paragraph} && anotherParagraph.Repr == {anotherParagraph}
    ensures superParagraph.Repr == {superParagraph, paragraph, anotherParagraph}
    ensures superParagraph.children == [ParagraphChild(paragraph), SentenceChild(s4), ParagraphChild(anotherParagraph)]
    ensures s4.text == "This is a sentence in the super paragraph."
    ensures paragraph.LogText() == ["Hello world", "This is a sentence.", "It is contained in a paragraph."]
    ensures |anotherParagraph.children| == 2 && anotherParagraph.children[0].SentenceChild?
    ensures anotherParagraph.children[0].s.text == "This is a sentence in another paragraph."
    ensures anotherParagraph.LogText() == ["This is a sentence in another paragraph.", "This is another sentence in another paragraph."]
    ensures superParagraph.LogText() ==
      [" ", "Hello world", "This is a sentence.", "It is contained in a paragraph.", " ",
       "This is a sentence in the super paragraph.",
       " ", "This is a sentence in another paragraph.", "This is another sentence in another paragraph.", " "]
  {
    paragraph := FirstParagraph();
    superParagraph, s4 := SuperParagraph(paragraph);
    ghost var before := superParagraph.LogText();

    anotherParagraph := AnotherParagraph();
    AddParagraph(superParagraph, anotherParagraph);
    FirstDemoLines(before, anotherParagraph.LogText(), superParagraph.LogText());
  }

  /**
   * The demo: after the first output, removing a sentence from the shared inner paragraph
   * changes what the super paragraph prints; then the super paragraph's own sentence is removed.
   */
  method CompositeUsage() returns (first: seq<string>, second: seq<string>, third: seq<string>)
    ensures first == [" ", "Hello world", "This is a sentence.", "It is contained in a paragraph.", " ",
                      "This is a sentence in the super paragraph.",
                      " ", "This is a sentence in another paragraph.", "This is another sentence in another paragraph.", " "]
    ensures second == [" ", "Hello world", "This is a sentence.", "It is contained in a paragraph.", " ",
                       "This is a sentence in the super paragraph.",
                       " ", "This is a sentence in another paragraph.", " "]
    ensures third == [" ", "Hello world", "This is a sentence.", "It is contained in a paragraph.", " ",
                      " ", "This is a sentence in another paragraph.", " "]
  {
    var superParagraph, paragraph, s4, anotherParagraph := BuildDemo();
    first := superParagraph.LogText();

    var s5 := anotherParagraph.children[0].s;
    anotherParagraph.Remove(1);
    LinesOfSentence(s5, anotherParagraph.Repr - {anotherParagraph});
    assert anotherParagraph.LogText() == [s5.text];
    assert paragraph.Valid();
    assert superParagraph.Valid();
    second := superParagraph.LogText();
    ThreeChildLines(superParagraph, paragraph, s4, anotherParagraph);
    SecondDemoLines(paragraph.LogText(), anotherParagraph.LogText(), second);

    superParagraph.Remove(1);
    third := superParagraph.LogText();
    LinesOfParagraph(paragraph, superParagraph.Repr - {superParagraph});
    LinesOfParagraph(anotherParagraph, superParagraph.Repr - {superParagraph});
    ThirdDemoLines(paragraph.LogText(), anotherParagraph.LogText(), third);
  }
}
