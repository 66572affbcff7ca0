/**
  The cases of the repository's unit tests of the naming helpers
  (controllers/util/utils_test.go).  For ConsoleLinkText each name is cut
  at its dashes; the stages of ConsoleLinkText are proved on symbolic
  words, and only the words themselves are literals.
*/
module UtilExamples {
  import opened AtlasMapTypes
  import opened GoStrings
  import opened Util

  /** Lower-casing, then turning dashes into spaces: the first two steps of LinkWords. */
  function Dashed(s: string): string
  {
    ReplaceAll(ToLower(s), '-', ' ')
  }

  /** A lower-case word without dashes goes through Dashed unchanged. */
  lemma DashedWord(w: string)
    requires LowerCase(w) && '-' !in w
    ensures Dashed(w) == w
  {
    ToLowerKeepsLowerCase(w);
    ReplaceAllAbsent(w, '-', ' ');
  }

  /** Dashed takes `a-w` to `Dashed(a) w` when w is a lower-case word without dashes. */
  lemma DashedJoin(a: string, w: string)
    requires LowerCase(w) && '-' !in w
    ensures Dashed(a + "-" + w) == Dashed(a) + " " + w
  {
    ToLowerAppend(a + "-", w);
    ToLowerAppend(a, "-");
    ToLowerKeepsLowerCase(w);
    ToLowerKeepsLowerCase("-");
    ReplaceAllAppend(ToLower(a) + "-", w, '-', ' ');
    ReplaceAllAppend(ToLower(a), "-", '-', ' ');
    ReplaceAllAbsent(w, '-', ' ');
    assert ReplaceAll("-", '-', ' ') == " ";
  }

  /** The two trimming steps of LinkWords, on what Dashed produced. */
  function Stripped(d: string): string
  {
    TrimSuffix(TrimPrefix(d, ProductName), ProductName)
  }

  lemma StrippedNone(d: string)
    requires !(ProductName <= d) && !HasSuffix(d, ProductName)
    ensures Stripped(d) == d
  {
  }

  lemma StrippedLeading(mid: string)
    requires !HasSuffix(mid, ProductName)
    ensures Stripped(ProductName + mid) == mid
  {
    assert (ProductName + mid)[|ProductName|..] == mid;
  }

  lemma StrippedTrailing(mid: string)
    requires !(ProductName <= mid + ProductName)
    ensures Stripped(mid + ProductName) == mid
  {
    assert (mid + ProductName)[|mid|..] == ProductName;
  }

  lemma StrippedBoth(mid: string)
    ensures Stripped(ProductName + mid + ProductName) == mid
  {
    var d := ProductName + (mid + ProductName);
    assert d == ProductName + mid + ProductName;
    assert d[|ProductName|..] == mid + ProductName;
    assert (mid + ProductName)[|mid|..] == ProductName;
  }

  /** ConsoleLinkText composed from the results of its stages. */
  lemma LinkTextOf(cr: AtlasMap, dashed: string, words: string, titled: string, rest: string)
    requires Dashed(cr.Name()) == dashed && Stripped(dashed) == words
    requires Title(words) == titled && TrimSpace(titled) == rest
    ensures ConsoleLinkText(cr) == LinkTextPrefix + rest
  {
  }

  /** A lower-case ASCII word: what the CR names of the examples are made of. */
  predicate Word(w: string)
  {
    w != [] && forall i :: 0 <= i < |w| ==> 'a' <= w[i] <= 'z' || '0' <= w[i] <= '9'
  }

  /** A word is lower case and dash free, and its title neither starts nor ends with a space. */
  lemma WordFacts(w: string)
    requires Word(w)
    ensures LowerCase(w) && '-' !in w
    ensures Title(w) != [] && !IsSpace(Title(w)[0]) && !IsSpace(Title(w)[|w| - 1])
  {
    assert forall i :: 0 <= i < |w| ==> IsAsciiAlnum(w[i]);
    TitleWord(w);
    var t := Title(w);
    assert t[0] == ToTitleChar(w[0]);
    assert IsAsciiAlnum(t[0]);
    if |w| > 1 {
      assert t[|w| - 1] == w[|w| - 1];
    }
    assert IsAsciiAlnum(t[|w| - 1]);
  }

  lemma ProductWord()
    ensures Word(ProductName) && LowerCase(ProductName) && '-' !in ProductName
  {
  }

  lemma Spaces()
    ensures Title(" ") == " " && AllSpace(" ") && AllSpace("") && IsSeparator(' ')
  {
  }

  /** `<u>-<v>` without the product name at either end: both words, title-cased. */
  lemma LinkTextTwoWords(cr: AtlasMap, u: string, v: string)
    requires Word(u) && Word(v) && cr.Name() == u + "-" + v
    requires !(ProductName <= u + " " + v) && !HasSuffix(u + " " + v, ProductName)
    ensures ConsoleLinkText(cr) == LinkTextPrefix + (Title(u) + " " + Title(v))
  {
    DashedTwo(u, v);
    StrippedNone(u + " " + v);
    TitleSpaced(u, v);
    TrimTwo(u, v);
    LinkTextOf(cr, u + " " + v, u + " " + v, Title(u) + " " + Title(v), Title(u) + " " + Title(v));
  }

  lemma DashedTwo(u: string, v: string)
    requires Word(u) && Word(v)
    ensures Dashed(u + "-" + v) == u + " " + v
  {
    WordFacts(u);
    WordFacts(v);
    DashedWord(u);
    DashedJoin(u, v);
  }

  lemma TrimTwo(u: string, v: string)
    requires Word(u) && Word(v)
    ensures TrimSpace(Title(u) + " " + Title(v)) == Title(u) + " " + Title(v)
  {
    WordFacts(u);
    WordFacts(v);
    var titled := Title(u) + " " + Title(v);
    assert titled[0] == Title(u)[0];
    assert titled[|titled| - 1] == Title(v)[|v| - 1];
    Spaces();
    TrimSpaceOf("", titled, "");
    assert "" + titled + "" == titled;
  }

  /** `<w>-atlasmap`: the trailing product name goes, the word is title-cased. */
  lemma LinkTextProductLast(cr: AtlasMap, w: string)
    requires Word(w) && cr.Name() == w + "-" + ProductName
    requires !(ProductName <= w + " " + ProductName)
    ensures ConsoleLinkText(cr) == LinkTextPrefix + Title(w)
  {
    DashedLast(w);
    StrippedTrailing(w + " ");
    TitleSpaceAfter(w);
    TrimLast(w);
    LinkTextOf(cr, w + " " + ProductName, w + " ", Title(w) + " ", Title(w));
  }

  lemma DashedLast(w: string)
    requires Word(w)
    ensures Dashed(w + "-" + ProductName) == w + " " + ProductName
  {
    WordFacts(w);
    ProductWord();
    DashedWord(w);
    DashedJoin(w, ProductName);
  }

  lemma TrimLast(w: string)
    requires Word(w)
    ensures TrimSpace(Title(w) + " ") == Title(w)
  {
    WordFacts(w);
    Spaces();
    TrimSpaceOf("", Title(w), " ");
    assert "" + Title(w) + " " == Title(w) + " ";
  }

  /** `atlasmap-<w>`: the leading product name goes, the word is title-cased. */
  lemma LinkTextProductFirst(cr: AtlasMap, w: string)
    requires Word(w) && cr.Name() == ProductName + "-" + w
    requires !HasSuffix(" " + w, ProductName)
    ensures ConsoleLinkText(cr) == LinkTextPrefix + Title(w)
  {
    DashedFirst(w);
    StrippedLeading(" " + w);
    TitleSpaceBefore(w);
    TrimFirst(w);
    LinkTextOf(cr, ProductName + (" " + w), " " + w, " " + Title(w), Title(w));
  }

  lemma DashedFirst(w: string)
    requires Word(w)
    ensures Dashed(ProductName + "-" + w) == ProductName + (" " + w)
  {
    WordFacts(w);
    ProductWord();
    DashedWord(ProductName);
    DashedJoin(ProductName, w);
    assert ProductName + " " + w == ProductName + (" " + w);
  }

  lemma TrimFirst(w: string)
    requires Word(w)
    ensures TrimSpace(" " + Title(w)) == Title(w)
  {
    WordFacts(w);
    Spaces();
    TrimSpaceOf(" ", Title(w), "");
    assert " " + Title(w) + "" == " " + Title(w);
  }

  /** `atlasmap-<w>-atlasmap`: one product name goes from each end. */
  lemma LinkTextProductBoth(cr: AtlasMap, w: string)
    requires Word(w) && cr.Name() == ProductName + "-" + w + "-" + ProductName
    ensures ConsoleLinkText(cr) == LinkTextPrefix + Title(w)
  {
    var words := " " + w + " ";
    DashedBoth(w);
    StrippedBoth(words);
    TitleBoth(w);
    TrimBoth(w);
    LinkTextOf(cr, ProductName + words + ProductName, words, " " + Title(w) + " ", Title(w));
  }

  lemma DashedBoth(w: string)
    requires Word(w)
    ensures Dashed(ProductName + "-" + w + "-" + ProductName) == ProductName + (" " + w + " ") + ProductName
  {
    WordFacts(w);
    ProductWord();
    DashedWord(ProductName);
    DashedJoin(ProductName, w);
    DashedJoin(ProductName + "-" + w, ProductName);
    assert ProductName + " " + w + " " + ProductName == ProductName + (" " + w + " ") + ProductName;
  }

  lemma TitleBoth(w: string)
    requires Word(w)
    ensures Title(" " + w + " ") == " " + Title(w) + " "
  {
    TitleSpaceBefore(w + " ");
    TitleSpaceAfter(w);
    assert " " + w + " " == " " + (w + " ");
    assert " " + (Title(w) + " ") == " " + Title(w) + " ";
  }

  /** A space before a text keeps the title of the text. */
  lemma TitleSpaceBefore(t: string)
    ensures Title(" " + t) == " " + Title(t)
  {
    Spaces();
    TitleAppend(" ", t);
  }

  /** A space after a text keeps the title of the text. */
  lemma TitleSpaceAfter(t: string)
    ensures Title(t + " ") == Title(t) + " "
  {
    Spaces();
    TitleAppend(t, " ");
  }

  lemma TrimBoth(w: string)
    requires Word(w)
    ensures TrimSpace(" " + Title(w) + " ") == Title(w)
  {
    WordFacts(w);
    Spaces();
    TrimSpaceOf(" ", Title(w), " ");
  }

  // The four names of the repository's unit test of ConsoleLinkText.

  lemma TitleWords()
    ensures Title("test") == "Test" && Title("name") == "Name" && Title("example") == "Example"
  {
    TitleWord("test");
    TitleWord("name");
    TitleWord("example");
  }

  lemma ExampleText() ensures LinkTextPrefix + "Example" == "AtlasMap - Example" { }

  lemma TestNameWords()
    ensures Word("test") && Word("name")
    ensures !(ProductName <= "test" + " " + "name") && !HasSuffix("test" + " " + "name", ProductName)
    ensures LinkTextPrefix + ("Test" + " " + "Name") == "AtlasMap - Test Name"
  {
    var words := "test" + " " + "name";
    assert words[0] != ProductName[0] && words[|words| - 1] != ProductName[|ProductName| - 1];
  }

  lemma ConsoleLinkTextTestName(cr: AtlasMap)
    requires cr.Name() == "test-name"
    ensures ConsoleLinkText(cr) == "AtlasMap - Test Name"
  {
    TitleWords();
    TestNameWords();
    assert cr.Name() == "test" + "-" + "name";
    LinkTextTwoWords(cr, "test", "name");
  }

  lemma ConsoleLinkTextExampleSuffix(cr: AtlasMap)
    requires cr.Name() == "example-atlasmap"
    ensures ConsoleLinkText(cr) == "AtlasMap - Example"
  {
    TitleWords();
    ExampleText();
    assert Word("example");
    assert ("example" + " " + ProductName)[0] != ProductName[0];
    assert cr.Name() == "example" + "-" + ProductName;
    LinkTextProductLast(cr, "example");
  }

  lemma ConsoleLinkTextExamplePrefix(cr: AtlasMap)
    requires cr.Name() == "atlasmap-example"
    ensures ConsoleLinkText(cr) == "AtlasMap - Example"
  {
    TitleWords();
    ExampleText();
    assert Word("example");
    var words := " " + "example";
    assert words[|words| - 1] != ProductName[|ProductName| - 1];
    assert cr.Name() == ProductName + "-" + "example";
    LinkTextProductFirst(cr, "example");
  }

  lemma ConsoleLinkTextExampleBoth(cr: AtlasMap)
    requires cr.Name() == "atlasmap-example-atlasmap"
    ensures ConsoleLinkText(cr) == "AtlasMap - Example"
  {
    TitleWords();
    ExampleText();
    assert Word("example");
    assert cr.Name() == ProductName + "-" + "example" + "-" + ProductName;
    LinkTextProductBoth(cr, "example");
  }

  /** A resource named `test-name` in `test-namespace` without a host name gets the Ingress host `test-name-test-namespace`. */
  lemma IngressHostNameTest(cr: AtlasMap)
    requires cr.Name() == "test-name" && cr.Namespace() == "test-namespace" && cr.spec.routeHostName == ""
    ensures GetIngressHostNameFor(cr) == "test-name-test-namespace"
  {
  }

  lemma ImageNameTest()
    ensures ImageName("docker.io/test/image", "1.2.3") == "docker.io/test/image:1.2.3"
  {
  }

  lemma ConsoleLinkNameTest(cr: AtlasMap)
    requires cr.Name() == "test-name" && cr.Namespace() == "test-namespace"
    ensures ConsoleLinkName(cr) == "test-name-test-namespace"
  {
  }
}
