/**
 * Strings for the query builders: `Array.prototype.join` over strings, and a
 * tokenizer that splits a statement at every single space, so that the shape
 * of a generated statement (its words, its separators, any doubled space) can
 * be stated independently of the template that builds it.
 */
module Text {

  /** `xs.join(sep)` for an array of strings. */
  function Join(xs: seq<string>, sep: string): string {
    if |xs| == 0 then ""
    else if |xs| == 1 then xs[0]
    else xs[0] + sep + Join(xs[1..], sep)
  }

  /** The pieces of `s` between single spaces: `s.split(" ")`. Two adjacent
      spaces produce an empty word, and the empty string is one empty word. */
  function Words(s: string): (ws: seq<string>)
    ensures |ws| > 0
  {
    if |s| == 0 then [""]
    else
      var rest := Words(s[1..]);
      if s[0] == ' ' then [""] + rest else [[s[0]] + rest[0]] + rest[1..]
  }

  /** Splitting is a homomorphism: the words of `a + " " + b` are the words
      of `a` followed by the words of `b`. */
  lemma {:induction false} WordsSplice(a: string, b: string)
    ensures Words(a + " " + b) == Words(a) + Words(b)
  {
    if |a| == 0 {
      assert a + " " + b == " " + b;
      assert (" " + b)[1..] == b;
    } else {
      var s := a + " " + b;
      assert s[0] == a[0];
      assert s[1..] == a[1..] + " " + b;
      WordsSplice(a[1..], b);
    }
  }

  /** A string with no space in it is one word. */
  lemma {:induction false} PlainWord(s: string)
    requires ' ' !in s
    ensures Words(s) == [s]
  {
    if |s| > 0 {
      assert ' ' !in s[1..] by {
        forall i | 0 <= i < |s[1..]| ensures s[1..][i] != ' ' {
          assert s[1..][i] == s[i + 1];
        }
      }
      PlainWord(s[1..]);
      assert [s[0]] + s[1..] == s;
    }
  }

  /** A literal of words between two spaces, placed between `x` and `y`,
      contributes exactly those words. */
  lemma InfixWords(x: string, lit: string, ws: seq<string>, y: string)
    requires |ws| > 0 && forall i :: 0 <= i < |ws| ==> ' ' !in ws[i]
    requires lit == " " + Join(ws, " ") + " "
    ensures Words(x + lit + y) == Words(x) + ws + Words(y)
  {
    var m := Join(ws, " ");
    SpacedWords(ws);
    WordsSplice(m, y);
    WordsSplice(x, m + " " + y);
    Regroup(x, m, y);
  }

  lemma Regroup(x: string, m: string, y: string)
    ensures x + (" " + m + " ") + y == x + " " + (m + " " + y)
  {
  }

  /** A trailing literal of words after a space contributes exactly those words. */
  lemma SuffixWords(x: string, lit: string, ws: seq<string>)
    requires |ws| > 0 && forall i :: 0 <= i < |ws| ==> ' ' !in ws[i]
    requires lit == " " + Join(ws, " ")
    ensures Words(x + lit) == Words(x) + ws
  {
    SpacedWords(ws);
    WordsSplice(x, Join(ws, " "));
    assert x + (" " + Join(ws, " ")) == x + " " + Join(ws, " ");
  }

  /** The words a list joined by ", " contributes: each element but the last
      carries the comma; an empty list is one empty word. */
  function ListWords(xs: seq<string>): (ws: seq<string>)
    ensures |ws| > 0
  {
    if |xs| == 0 then [""]
    else if |xs| == 1 then Words(xs[0])
    else Words(xs[0] + ",") + ListWords(xs[1..])
  }

  lemma {:induction false} JoinWords(xs: seq<string>)
    ensures Words(Join(xs, ", ")) == ListWords(xs)
  {
    if |xs| > 1 {
      assert Join(xs, ", ") == (xs[0] + ",") + " " + Join(xs[1..], ", ");
      WordsSplice(xs[0] + ",", Join(xs[1..], ", "));
      JoinWords(xs[1..]);
    }
  }

  /** Words with no space in them, joined by single spaces, split back
      into themselves. */
  lemma {:induction false} SpacedWords(ws: seq<string>)
    requires |ws| > 0
    requires forall i :: 0 <= i < |ws| ==> ' ' !in ws[i]
    ensures Words(Join(ws, " ")) == ws
  {
    PlainWord(ws[0]);
    if |ws| > 1 {
      SpacedWords(ws[1..]);
      WordsSplice(ws[0], Join(ws[1..], " "));
    }
  }

  /** The items of a list with a comma after every item but the last. */
  function Punctuated(xs: seq<string>): (ps: seq<string>)
    ensures |ps| == |xs|
  {
    seq(|xs|, i requires 0 <= i < |xs| => if i < |xs| - 1 then xs[i] + "," else xs[i])
  }

  /** For SOQL identifiers (no spaces) the joined list reads back as the
      identifiers themselves, each but the last followed by a comma. */
  lemma {:induction false} ListWordsOfIdentifiers(xs: seq<string>)
    requires |xs| > 0
    requires forall i :: 0 <= i < |xs| ==> ' ' !in xs[i]
    ensures ListWords(xs) == Punctuated(xs)
  {
    if |xs| == 1 {
      PlainWord(xs[0]);
    } else {
      assert ' ' !in xs[0] + ",";
      PlainWord(xs[0] + ",");
      ListWordsOfIdentifiers(xs[1..]);
      assert Punctuated(xs) == [xs[0] + ","] + Punctuated(xs[1..]);
    }
  }
}
