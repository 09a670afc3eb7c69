/** The text form of a portfolio, whose negative counts pass through an unsigned. */
module PortfolioCodec {
  import opened Portfolios
  import opened Text
  import opened Codec

  /** A portfolio keyed by item name. */
  type Counts = map<string, int>

  /** `items` lists the entries of `m`, each once, in whatever order the map iterates. */
  ghost predicate Enumerates(items: seq<(string, int)>, m: Counts) {
    && (forall name :: name in m <==> exists i :: 0 <= i < |items| && items[i].0 == name)
    && (forall i | 0 <= i < |items| :: items[i].0 in m && m[items[i].0] == items[i].1)
    && forall i, j | 0 <= i < j < |items| :: items[i].0 != items[j].0
  }

  function ShowItem(item: (string, int)): string {
    item.0 + " " + PrintInt(item.1)
  }

  /** A name, then a count that is read as unsigned and cast back. */
  function ReadItem(s: string): Read<(string, int)> {
    var (name, s1) :- ReadWord(s);
    var (count, s2) :- ReadUnsigned(s1, TWO_32);
    Got((name, AsInt32(count)), s2)
  }

  /** The count of items, a blank, and the items with blanks between them. */
  function PrintPortfolio(items: seq<(string, int)>): string {
    PrintInt(|items|) + if items == [] then " " else PrintEach(items, ShowItem)
  }

  function AddAll(port: Counts, items: seq<(string, int)>): Counts {
    if items == [] then port
    else
      var last := items[|items| - 1];
      Transact(AddAll(port, items[..|items| - 1]), last.0, last.1)
  }

  function ReadPortfolio(s: string): Read<Counts> {
    var (n, s1) :- ReadUnsigned(s, TWO_32);
    var (items, s2) :- ReadMany(s1, n, ReadItem);
    Got(AddAll(map[], items), s2)
  }

  /** Wrapping a signed count through an unsigned and casting it back is the identity. */
  lemma CastBack(n: int)
    requires IsInt32(n)
    ensures AsInt32(if n < 0 then n + TWO_32 else n) == n
  {
  }

  lemma ReadNameThenCount(s: string, item: (string, int), s1: string, u: nat, rest: string)
    requires ReadWord(s) == Got(item.0, s1) && ReadUnsigned(s1, TWO_32) == Got(u, rest) && AsInt32(u) == item.1
    ensures ReadItem(s) == Got(item, rest)
  {
  }

  /** A signed count reads as an unsigned that casts back to it. */
  lemma ReadSigned(n: int, rest: string)
    requires IsInt32(n) && Stops(rest)
    ensures ReadUnsigned(Spaced(n, rest), TWO_32) == Got(if n < 0 then n + TWO_32 else n, rest)
  {
    ReadPrinted(n, rest);
    ReadAfterSpace(PrintInt(n) + rest);
  }

  lemma ReadShownItem(item: (string, int), rest: string)
    requires IsWord(item.0) && IsInt32(item.1) && Stops(rest)
    ensures ReadItem(" " + (ShowItem(item) + rest)) == Got(item, rest)
  {
    var n := item.1;
    var tail := Spaced(n, rest);
    Concat(item.0, " ", PrintInt(n));
    Appended(item.0, PrintInt(n), rest);
    ReadAfterSpace(item.0 + tail);
    ReadPrintedWord(item.0, tail);
    ReadSigned(n, rest);
    CastBack(n);
    ReadNameThenCount(" " + (item.0 + tail), item, tail, if n < 0 then n + TWO_32 else n, rest);
  }

  lemma ItemInverse(item: (string, int))
    requires IsWord(item.0) && IsInt32(item.1)
    ensures Inverse(item, ShowItem, ReadItem)
  {
    forall rest: string | Stops(rest)
      ensures ReadItem(" " + (ShowItem(item) + rest)) == Got(item, rest)
    {
      ReadShownItem(item, rest);
    }
  }

  lemma {:induction false} AddAllEnumerated(items: seq<(string, int)>, m: Counts)
    requires Enumerates(items, m)
    ensures AddAll(map[], items) == m
  {
    AddAllEntries(items);
    var r := AddAll(map[], items);
    forall name
      ensures name in r <==> name in m
      ensures name in r ==> r[name] == m[name]
    {
      if name in m {
        var i :| 0 <= i < |items| && items[i].0 == name;
      }
    }
  }

  lemma {:induction false} AddAllEntries(items: seq<(string, int)>)
    requires forall i, j | 0 <= i < j < |items| :: items[i].0 != items[j].0
    ensures var r := AddAll(map[], items);
            && (forall i | 0 <= i < |items| :: items[i].0 in r && r[items[i].0] == items[i].1)
            && forall name | name in r :: exists i :: 0 <= i < |items| && items[i].0 == name
  {
    if items != [] {
      var n := |items| - 1;
      AddAllEntries(items[..n]);
      var front := AddAll(map[], items[..n]);
      assert items[n].0 !in front;
      forall i | 0 <= i < n
        ensures items[i].0 in front && front[items[i].0] == items[i].1
      {
        assert items[..n][i] == items[i];
      }
      forall name | name in AddAll(map[], items)
        ensures exists i :: 0 <= i < |items| && items[i].0 == name
      {
        if name != items[n].0 {
          var i :| 0 <= i < n && items[..n][i].0 == name;
          assert items[i].0 == name;
        }
      }
    }
  }

  /** Only words come out of the reader. */
  lemma {:induction false} ReadNamesAreWords(s: string, n: nat)
    ensures ReadMany(s, n, ReadItem).Got? ==> forall x | x in ReadMany(s, n, ReadItem).value :: IsWord(x.0)
  {
    if n > 0 {
      ReadNamesAreWords(s, n - 1);
      var earlier := ReadMany(s, n - 1, ReadItem);
      if earlier.Got? {
        ReadWordIsWord(earlier.rest);
      }
    }
  }

  lemma {:induction false} AddedNames(items: seq<(string, int)>)
    requires forall x | x in items :: IsWord(x.0)
    ensures forall name | name in AddAll(map[], items) :: IsWord(name)
  {
    if items != [] {
      var front := items[..|items| - 1];
      assert items[|items| - 1] in items;
      AddedNames(front);
    }
  }

  lemma ReadCountThenItems(s: string, s1: string, items: seq<(string, int)>, rest: string)
    requires ReadUnsigned(s, TWO_32) == Got(|items|, s1)
    requires ReadMany(s1, |items|, ReadItem) == Got(items, rest)
    ensures ReadPortfolio(s) == Got(AddAll(map[], items), rest)
  {
  }

  lemma EmptyTrip(items: seq<(string, int)>, rest: string)
    requires items == []
    ensures ReadPortfolio(PrintPortfolio(items) + rest) == Got(map[], " " + rest)
  {
    FieldUnsigned(0, TWO_32, " " + rest);
    Concat(PrintInt(0), " ", rest);
    ReadCountThenItems(PrintPortfolio(items) + rest, " " + rest, items, " " + rest);
  }

  lemma ItemsTrip(items: seq<(string, int)>, rest: string)
    requires 0 < |items| < TWO_32 && Stops(rest)
    requires forall x | x in items :: IsWord(x.0) && IsInt32(x.1)
    ensures ReadPortfolio(PrintPortfolio(items) + rest) == Got(AddAll(map[], items), rest)
  {
    forall x | x in items
      ensures Inverse(x, ShowItem, ReadItem)
    {
      ItemInverse(x);
    }
    var tail := PrintEach(items, ShowItem) + rest;
    ReadPrintedEach(items, ShowItem, ReadItem, rest);
    FieldUnsigned(|items|, TWO_32, tail);
    Concat(PrintInt(|items|), PrintEach(items, ShowItem), rest);
    ReadCountThenItems(PrintPortfolio(items) + rest, tail, items, rest);
  }

  /** With word names every count comes back, negative ones included, for any iteration order. */
  lemma WordsRoundTrip(m: Counts, items: seq<(string, int)>, rest: string)
    requires Enumerates(items, m) && |items| < TWO_32 && Stops(rest)
    requires forall name | name in m :: IsInt32(m[name]) && IsWord(name)
    ensures ReadPortfolio(PrintPortfolio(items) + rest) == Got(m, if items == [] then " " + rest else rest)
  {
    AddAllEnumerated(items, m);
    if items == [] {
      EmptyTrip(items, rest);
    } else {
      ItemsTrip(items, rest);
    }
  }

  /**
   * A portfolio with 32-bit counts comes back from its text, read into an
   * empty portfolio, exactly when every item name is a word: not empty and
   * free of white space.
   */
  lemma PortfolioRoundTripIff(m: Counts, items: seq<(string, int)>, rest: string)
    requires Enumerates(items, m) && |items| < TWO_32 && Stops(rest)
    requires forall name | name in m :: IsInt32(m[name])
    ensures var r := ReadPortfolio(PrintPortfolio(items) + rest);
            (r.Got? && r.value == m) <==> forall name | name in m :: IsWord(name)
  {
    var s := PrintPortfolio(items) + rest;
    var r := ReadPortfolio(s);
    if r.Got? && r.value == m {
      var count := ReadUnsigned(s, TWO_32);
      ReadNamesAreWords(count.rest, count.value);
      AddedNames(ReadMany(count.rest, count.value, ReadItem).value);
    }
    if forall name | name in m :: IsWord(name) {
      WordsRoundTrip(m, items, rest);
    }
  }

  // ---- A subject with its portfolio ----------------------------------------

  function PrintSubjectPortfolio(id: nat, items: seq<(string, int)>): string {
    PrintInt(id) + " " + PrintPortfolio(items)
  }

  function ReadSubjectPortfolio(s: string): Read<(nat, Counts)> {
    var (id, s1) :- ReadUnsigned(s, TWO_64);
    var (port, s2) :- ReadPortfolio(s1);
    Got((id, port), s2)
  }

  lemma SubjectPortfolioRoundTrip(id: nat, m: Counts, items: seq<(string, int)>, rest: string)
    requires id < TWO_64 && Enumerates(items, m) && |items| < TWO_32 && Stops(rest)
    requires forall name | name in m :: IsInt32(m[name]) && IsWord(name)
    ensures ReadSubjectPortfolio(PrintSubjectPortfolio(id, items) + rest).Got?
    ensures ReadSubjectPortfolio(PrintSubjectPortfolio(id, items) + rest).value == (id, m)
  {
    var body := PrintPortfolio(items) + rest;
    assert ReadPortfolio(body).Got? && ReadPortfolio(body).value == m by {
      WordsRoundTrip(m, items, rest);
    }
    BlankBeforePortfolio(body);
    FieldUnsigned(id, TWO_64, " " + body);
    Concat(PrintInt(id), " ", PrintPortfolio(items));
    Appended(PrintInt(id), PrintPortfolio(items), rest);
    ReadBoth(PrintSubjectPortfolio(id, items) + rest, id, " " + body);
  }

  lemma BlankBeforePortfolio(s: string)
    ensures ReadPortfolio(" " + s) == ReadPortfolio(s)
  {
    ReadAfterSpace(s);
  }

  lemma ReadBoth(s: string, id: nat, s1: string)
    requires ReadUnsigned(s, TWO_64) == Got(id, s1) && ReadPortfolio(s1).Got?
    ensures ReadSubjectPortfolio(s) == Got((id, ReadPortfolio(s1).value), ReadPortfolio(s1).rest)
  {
  }
}
