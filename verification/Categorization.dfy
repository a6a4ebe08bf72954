/** Plaid's personal_finance_category taxonomy onto a two-level category table, and a transaction's meaning. */
module Categorization {
  import opened Wrappers
  import opened PlaidFeed
  import opened Store

  const MINOR_WORDS := {"and", "or", "of", "the", "a", "an", "in", "to"}

  /** The primary code, unless it is missing or empty. */
  function PrimaryOf(pfc: Option<Pfc>): Option<string> {
    if pfc.Some? && pfc.value.primary.Some? && pfc.value.primary.value != "" then pfc.value.primary else None
  }

  function Classify(pfc: Option<Pfc>, amount: int): Classification {
    match PrimaryOf(pfc)
    case None => Unknown
    case Some(primary) =>
      if primary == "INCOME" then Income
      else if primary in {"TRANSFER_IN", "TRANSFER_OUT", "LOAN_PAYMENTS"} then Transfer
      else if primary == "BANK_FEES" then Fee
      else if amount < 0 then Refund
      else Expense
  }

  // ----- names (ASCII case only) -----

  function LowerChar(c: char): char {
    if 'A' <= c <= 'Z' then c + ' ' else c
  }

  function UpperChar(c: char): char {
    if 'a' <= c <= 'z' then c - ' ' else c
  }

  function Lower(s: string): string {
    if s == "" then "" else [LowerChar(s[0])] + Lower(s[1..])
  }

  function Capitalize(word: string): string {
    if word == "" then "" else [UpperChar(word[0])] + Lower(word[1..])
  }

  function Split(s: string): seq<string>
    ensures |Split(s)| > 0
  {
    if s == "" then [""]
    else
      var rest := Split(s[1..]);
      if s[0] == '_' then [""] + rest else [[s[0]] + rest[0]] + rest[1..]
  }

  function JoinWords(words: seq<string>, first: bool): string {
    if words == [] then ""
    else
      var word := if !first && words[0] in MINOR_WORDS then words[0] else Capitalize(words[0]);
      (if first then word else " " + word) + JoinWords(words[1..], false)
  }

  function HumanizeCode(code: string): string {
    JoinWords(Split(Lower(code)), true)
  }

  /** Underscores to spaces. */
  function Spaced(s: string): string {
    if s == "" then "" else [if s[0] == '_' then ' ' else s[0]] + Spaced(s[1..])
  }

  function Spelled(words: seq<string>, first: bool): string {
    if words == [] then "" else (if first then words[0] else " " + words[0]) + Spelled(words[1..], false)
  }

  lemma {:induction false} LowerConcat(a: string, b: string)
    ensures Lower(a + b) == Lower(a) + Lower(b)
  {
    if a == "" {
      assert a + b == b;
    } else {
      assert (a + b)[1..] == a[1..] + b;
      LowerConcat(a[1..], b);
    }
  }

  lemma {:induction false} LowerTwice(s: string)
    ensures Lower(Lower(s)) == Lower(s)
  {
    if s != "" {
      LowerTwice(s[1..]);
    }
  }

  lemma {:induction false} JoinSpells(words: seq<string>, first: bool)
    ensures Lower(JoinWords(words, first)) == Lower(Spelled(words, first))
  {
    if words != [] {
      JoinSpells(words[1..], false);
      var word := if !first && words[0] in MINOR_WORDS then words[0] else Capitalize(words[0]);
      CapitalizeKeepsLetters(words[0]);
      LowerConcat(" ", word);
      LowerConcat(" ", words[0]);
      LowerConcat(if first then word else " " + word, JoinWords(words[1..], false));
      LowerConcat(if first then words[0] else " " + words[0], Spelled(words[1..], false));
    }
  }

  lemma CapitalizeKeepsLetters(word: string)
    ensures Lower(Capitalize(word)) == Lower(word)
  {
    if word != "" {
      LowerTwice(word[1..]);
    }
  }

  lemma {:induction false} SplitSpells(s: string)
    ensures Spelled(Split(s), true) == Spaced(s)
    ensures Spelled(Split(s), false) == " " + Spaced(s)
  {
    if s != "" {
      SplitSpells(s[1..]);
    }
  }

  lemma {:induction false} SpacedInjective(a: string, b: string)
    requires ' ' !in a && ' ' !in b && Spaced(a) == Spaced(b)
    ensures a == b
  {
    if a != "" && b != "" {
      assert Spaced(a)[0] == Spaced(b)[0] && Spaced(a)[1..] == Spaced(b)[1..];
      SpacedInjective(a[1..], b[1..]);
      assert a == [a[0]] + a[1..] && b == [b[0]] + b[1..];
    }
  }

  lemma {:induction false} LowerOfSpaced(s: string)
    ensures Lower(Spaced(Lower(s))) == Spaced(Lower(s))
    ensures ' ' !in s ==> ' ' !in Lower(s)
  {
    if s != "" {
      LowerOfSpaced(s[1..]);
    }
  }

  /** Codes without spaces get the same category name exactly when they differ in letter case at most: the readable
      names never merge two categories. */
  lemma NamesAreFaithful(a: string, b: string)
    requires ' ' !in a && ' ' !in b
    ensures HumanizeCode(a) == HumanizeCode(b) <==> Lower(a) == Lower(b)
  {
    if HumanizeCode(a) == HumanizeCode(b) {
      JoinSpells(Split(Lower(a)), true);
      JoinSpells(Split(Lower(b)), true);
      SplitSpells(Lower(a));
      SplitSpells(Lower(b));
      LowerOfSpaced(a);
      LowerOfSpaced(b);
      SpacedInjective(Lower(a), Lower(b));
    }
  }

  function StripLeft(s: string): string {
    if s != "" && s[0] == '_' then StripLeft(s[1..]) else s
  }

  function StripRight(s: string): string {
    if s != "" && s[|s| - 1] == '_' then StripRight(s[..|s| - 1]) else s
  }

  function DetailedSuffix(primary: string, detailed: string): string {
    StripRight(StripLeft(if primary <= detailed then detailed[|primary|..] else detailed))
  }

  /** Under its primary code, a detailed code names what follows it. */
  lemma SuffixIsWhatFollows(primary: string, rest: string)
    requires rest != "" && rest[0] != '_' && rest[|rest| - 1] != '_'
    ensures DetailedSuffix(primary, primary + "_" + rest) == rest
    ensures DetailedSuffix(primary, primary) == ""
    ensures !(primary <= rest) ==> DetailedSuffix(primary, rest) == rest
  {
    var detailed := primary + "_" + rest;
    assert primary <= detailed && detailed[|primary|..] == "_" + rest && ("_" + rest)[1..] == rest;
    assert StripLeft("_" + rest) == StripLeft(rest) == rest && StripRight(rest) == rest;
    assert primary[|primary|..] == "";
  }

  // ----- names word by word -----

  lemma {:induction false} SplitWord(word: string)
    requires '_' !in word
    ensures Split(word) == [word]
  {
    if word != "" {
      SplitWord(word[1..]);
      assert word == [word[0]] + word[1..];
    }
  }

  lemma {:induction false} SplitSnoc(code: string, word: string)
    requires '_' !in word
    ensures Split(word) == [word] && Split(code + "_" + word) == Split(code) + [word]
  {
    SplitWord(word);
    if code != "" {
      SplitSnoc(code[1..], word);
      assert (code + "_" + word)[1..] == code[1..] + "_" + word;
    } else {
      assert ("" + "_" + word)[1..] == word;
    }
  }

  lemma {:induction false} JoinSnoc(words: seq<string>, word: string, first: bool)
    requires words != []
    ensures JoinWords(words + [word], first)
         == JoinWords(words, first) + (" " + if word in MINOR_WORDS then word else Capitalize(word))
  {
    assert (words + [word])[1..] == words[1..] + [word];
    if |words| == 1 {
      assert words[1..] == [] && [word][1..] == [];
    } else {
      JoinSnoc(words[1..], word, false);
    }
  }

  /** A single word is capitalised; a further word follows after a space, in lower case if it is a minor one and
      capitalised otherwise. */
  lemma NamesGoWordByWord(code: string, word: string)
    requires '_' !in word
    ensures HumanizeCode(word) == Capitalize(word)
    ensures HumanizeCode(code + "_" + word)
         == HumanizeCode(code) + (" " + if Lower(word) in MINOR_WORDS then Lower(word) else Capitalize(word))
  {
    hide Split, JoinWords, MINOR_WORDS;
    NoUnderscore(word);
    LowerConcat(code + "_", word);
    LowerConcat(code, "_");
    Underscore();
    SplitSnoc(Lower(code), Lower(word));
    JoinSnoc(Split(Lower(code)), Lower(word), true);
    CapitalizeLower(word);
    OneWord(Lower(word));
  }

  /** The minor words are these eight, whatever their case in the code. */
  lemma MinorWordsStaySmall(code: string, word: string)
    requires '_' !in word
    ensures HumanizeCode(code + "_" + word)
         == HumanizeCode(code) + (" " + if IsMinor(Lower(word)) then Lower(word) else Capitalize(word))
  {
    hide HumanizeCode, Capitalize, Lower;
    NamesGoWordByWord(code, word);
  }

  predicate IsMinor(word: string) {
    || word == "and" || word == "or" || word == "of" || word == "the" || word == "a" || word == "an" || word == "in"
    || word == "to"
  }

  /** Its first letter in upper case, the others in lower case. */
  lemma {:induction false} LowerIs(s: string)
    ensures |Lower(s)| == |s|
    ensures forall i :: 0 <= i < |s| ==> Lower(s)[i] == if 'A' <= s[i] <= 'Z' then (s[i] as int + 32) as char else s[i]
  {
    if s != "" {
      LowerIs(s[1..]);
    }
  }

  lemma CapitalizedIs(word: string)
    requires word != ""
    ensures |Capitalize(word)| == |word|
    ensures Capitalize(word)[0] == if 'a' <= word[0] <= 'z' then (word[0] as int - 32) as char else word[0]
    ensures forall i :: 0 < i < |word| ==>
              Capitalize(word)[i] == if 'A' <= word[i] <= 'Z' then (word[i] as int + 32) as char else word[i]
  {
    LowerIs(word[1..]);
  }

  lemma SpelledOut(word: string, name: string)
    requires |name| == |word| > 0
    requires name[0] == if 'a' <= word[0] <= 'z' then (word[0] as int - 32) as char else word[0]
    requires forall i :: 0 < i < |word| ==>
               name[i] == if 'A' <= word[i] <= 'Z' then (word[i] as int + 32) as char else word[i]
    ensures Capitalize(word) == name
  {
    hide Capitalize;
    CapitalizedIs(word);
  }

  /** The documented example. */
  lemma FoodAndDrink()
    ensures HumanizeCode("FOOD_AND_DRINK") == "Food and Drink"
  {
    hide HumanizeCode, Capitalize, Lower;
    assert "FOOD_AND_DRINK" == "FOOD" + "_" + "AND" + "_" + "DRINK";
    NamesGoWordByWord("FOOD" + "_" + "AND", "DRINK");
    NamesGoWordByWord("FOOD", "AND");
    NamesGoWordByWord("", "FOOD");
    SpelledOut("FOOD", "Food");
    SpelledOut("DRINK", "Drink");
    LowerIs("AND");
    LowerIs("DRINK");
    assert Lower("AND") == "and" && Lower("DRINK") == "drink";
  }

  lemma Underscore()
    ensures Lower("_") == "_"
  {
  }

  lemma OneWord(word: string)
    ensures JoinWords([word], true) == Capitalize(word)
  {
    assert [word][1..] == [];
  }

  lemma CapitalizeLower(word: string)
    ensures Capitalize(Lower(word)) == Capitalize(word)
  {
    if word != "" {
      LowerTwice(word[1..]);
    }
  }

  lemma {:induction false} NoUnderscore(word: string)
    requires '_' !in word
    ensures '_' !in Lower(word)
  {
    if word != "" {
      NoUnderscore(word[1..]);
    }
  }

  // ----- the resolver's meaning, without its cache -----

  function GetOrCreate(c: Categories, key: CategoryKey): (r: (Categories, CategoryId)) {
    if key in c.ids then (c, c.ids[key])
    else (Categories(c.ids[key := c.next], c.next + 1), c.next)
  }

  function ResolveIn(c: Categories, pfc: Option<Pfc>): (r: (Categories, Option<CategoryId>)) {
    var primary := PrimaryOf(pfc);
    if primary.None? then (c, None)
    else
      var (c1, parent) := GetOrCreate(c, CategoryKey(HumanizeCode(primary.value), None));
      var suffix := DetailedSuffix(primary.value, pfc.value.detailed.GetOr(""));
      if suffix == "" then (c1, Some(parent))
      else
        var (c2, child) := GetOrCreate(c1, CategoryKey(HumanizeCode(suffix), Some(parent)));
        (c2, Some(child))
  }

  /** The category a payload stands for in a table; None if it carries no category or the table lacks it. */
  function Derived(c: Categories, pfc: Option<Pfc>): Option<CategoryId> {
    var primary := PrimaryOf(pfc);
    if primary.None? then None
    else
      var parent := CategoryKey(HumanizeCode(primary.value), None);
      var suffix := DetailedSuffix(primary.value, pfc.value.detailed.GetOr(""));
      if parent !in c.ids then None
      else if suffix == "" then Some(c.ids[parent])
      else
        var child := CategoryKey(HumanizeCode(suffix), Some(c.ids[parent]));
        if child in c.ids then Some(c.ids[child]) else None
  }

  /** The table already holds every category the payload needs. */
  predicate Resolved(c: Categories, pfc: Option<Pfc>) {
    PrimaryOf(pfc).Some? ==> Derived(c, pfc).Some?
  }

  lemma GetOrCreateExtends(c: Categories, key: CategoryKey)
    requires c.Valid()
    ensures var (c', id) := GetOrCreate(c, key); c'.Valid() && c'.Extends(c) && key in c'.ids && c'.ids[key] == id
  {
  }

  lemma ExtendsTransitive(a: Categories, b: Categories, c: Categories)
    requires b.Extends(a) && c.Extends(b)
    ensures c.Extends(a)
  {
  }

  /** A category id never comes to name two categories. */
  lemma ResolveKeepsDistinct(c: Categories, pfc: Option<Pfc>)
    requires c.Valid()
    ensures c.Distinct() ==> ResolveIn(c, pfc).0.Distinct()
  {
    var primary := PrimaryOf(pfc);
    if primary.Some? && c.Distinct() {
      GetOrCreateExtends(c, CategoryKey(HumanizeCode(primary.value), None));
    }
  }

  /** Resolving yields the derived category, and invents nothing when the table already holds it. */
  lemma ResolveDerives(c: Categories, pfc: Option<Pfc>)
    requires c.Valid()
    ensures var (c', id) := ResolveIn(c, pfc);
            c'.Valid() && c'.Extends(c) && Resolved(c', pfc) && id == Derived(c', pfc)
    ensures Resolved(c, pfc) ==> ResolveIn(c, pfc).0 == c
  {
    var primary := PrimaryOf(pfc);
    if primary.Some? {
      var parentKey := CategoryKey(HumanizeCode(primary.value), None);
      var (c1, parent) := GetOrCreate(c, parentKey);
      GetOrCreateExtends(c, parentKey);
      var suffix := DetailedSuffix(primary.value, pfc.value.detailed.GetOr(""));
      if suffix != "" {
        var childKey := CategoryKey(HumanizeCode(suffix), Some(parent));
        GetOrCreateExtends(c1, childKey);
        ExtendsTransitive(c, c1, GetOrCreate(c1, childKey).0);
      }
    }
  }

  /** A category once derived never changes as the table grows. */
  lemma DerivedIsStable(c: Categories, c': Categories, pfc: Option<Pfc>)
    requires Resolved(c, pfc) && c'.Extends(c)
    ensures Resolved(c', pfc) && Derived(c', pfc) == Derived(c, pfc)
  {
  }

  /** What a resolved category is called: a detailed code names a child, after what follows the primary code, under a
      parent named after the primary code; a primary code alone, and a detailed code that adds nothing, the parent. */
  lemma CategoriesAreNamed(c: Categories, primary: string, rest: string, detailed: Option<string>)
    requires c.Valid() && primary != "" && rest != "" && rest[0] != '_' && rest[|rest| - 1] != '_'
    requires detailed in {None, Some(""), Some(primary), Some(primary + "_" + rest)}
    ensures var (c', id) := ResolveIn(c, Some(Pfc(Some(primary), detailed)));
            var parent := CategoryKey(HumanizeCode(primary), None);
            && id.Some? && parent in c'.ids
            && var child := CategoryKey(HumanizeCode(rest), Some(c'.ids[parent]));
               if detailed == Some(primary + "_" + rest) then child in c'.ids && c'.ids[child] == id.value
               else c'.ids[parent] == id.value
  {
    hide DetailedSuffix, HumanizeCode;
    SuffixIsWhatFollows(primary, rest);
    NoSuffix(primary);
    GetOrCreateExtends(c, CategoryKey(HumanizeCode(primary), None));
    assert primary + "_" + rest != primary && primary + "_" + rest != "";
  }

  lemma NoSuffix(primary: string)
    ensures DetailedSuffix(primary, "") == ""
  {
  }

  /** And none without a primary code. */
  lemma NothingIsNamed(c: Categories, pfc: Option<Pfc>)
    requires pfc.None? || pfc.value.primary in {None, Some("")}
    ensures ResolveIn(c, pfc) == (c, None)
  {
  }

  // ----- the resolver and its cache -----

  class CategoryResolver {
    var cache: map<CategoryKey, CategoryId>

    constructor ()
      ensures cache == map[]
    {
      cache := map[];
    }

    /** Every cached id is the table's. */
    ghost predicate Agrees(c: Categories)
      reads this
    {
      forall k :: k in cache ==> k in c.ids && c.ids[k] == cache[k]
    }

    /** The cache is invisible: the answer and the table are those of resolving against the table alone. */
    method Resolve(categories: Categories, pfc: Option<Pfc>) returns (table: Categories, id: Option<CategoryId>)
      requires Agrees(categories) && categories.Valid()
      modifies this
      ensures (table, id) == ResolveIn(categories, pfc)
      ensures Agrees(table) && table.Valid()
    {
      var primary := PrimaryOf(pfc);
      if primary.None? {
        return categories, None;
      }
      var parent;
      table, parent := LookUp(categories, CategoryKey(HumanizeCode(primary.value), None));
      var suffix := DetailedSuffix(primary.value, pfc.value.detailed.GetOr(""));
      if suffix == "" {
        return table, Some(parent);
      }
      var child;
      table, child := LookUp(table, CategoryKey(HumanizeCode(suffix), Some(parent)));
      id := Some(child);
    }

    method LookUp(categories: Categories, key: CategoryKey) returns (table: Categories, id: CategoryId)
      requires Agrees(categories) && categories.Valid()
      modifies this
      ensures (table, id) == GetOrCreate(categories, key)
      ensures Agrees(table) && table.Valid()
    {
      if key in cache {
        return categories, cache[key];
      }
      GetOrCreateExtends(categories, key);
      var created := GetOrCreate(categories, key);
      table, id := created.0, created.1;
      cache := cache[key := id];
    }
  }
}
