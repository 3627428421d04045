/**
 * The historical-mission content page: the table-of-contents navigation, which turns a
 * heading into an element id with `title.toLowerCase().replace(/\s+/g, "-")`, and the
 * menu button that shows and hides the table of contents.
 */
module Content01 {
  import opened Wrappers
  import opened Whitespace

  /** `toLowerCase` restricted to ASCII: 'A'..'Z' become 'a'..'z', every other character is kept. */
  function LowerAscii(c: char): (d: char)
    ensures 'A' <= c <= 'Z' ==> d as int == c as int + 32
    ensures !('A' <= c <= 'Z') ==> d == c
  {
    if 'A' <= c <= 'Z' then (c as int + 32) as char else c
  }

  /** `s.toLowerCase()` for strings whose upper-case letters are all ASCII. */
  function ToLowerCase(s: string): (r: string)
    ensures |r| == |s|
    ensures forall i :: 0 <= i < |s| ==> r[i] == LowerAscii(s[i])
  {
    seq(|s|, i requires 0 <= i < |s| => LowerAscii(s[i]))
  }

  /** `s.replace(/\s+/g, "-")`: every maximal run of whitespace becomes one hyphen. */
  function HyphenateSpaces(s: string): (r: string)
    ensures NoSpace(r)
    decreases |s|
  {
    if s == [] then []
    else if IsSpace(s[0]) then
      var rest := HyphenateSpaces(TrimStart(s[1..]));
      assert !IsSpace('-') && ("-" + rest)[1..] == rest;
      "-" + rest
    else
      var rest := HyphenateSpaces(s[1..]);
      assert ([s[0]] + rest)[1..] == rest;
      [s[0]] + rest
  }

  /**
   * The element id `handleNavigate` looks up for a heading: it has no whitespace, and apart
   * from whitespace and hyphens it holds the lower-cased heading's characters in order.
   */
  function Slug(title: string): (id: string)
    ensures NoSpace(id)
    ensures Erase(id) == Erase(ToLowerCase(title))
  {
    HyphenateSpacesCounts(ToLowerCase(title));
    HyphenateSpaces(ToLowerCase(title))
  }

  // ---------------------------------------------------------------------------
  // What the hyphenation keeps and what it inserts

  /** `s` with every whitespace character and every hyphen removed. */
  function Erase(s: string): string {
    if s == [] then [] else (if IsSpace(s[0]) || s[0] == '-' then [] else [s[0]]) + Erase(s[1..])
  }

  /** The number of hyphens in `s`. */
  function Hyphens(s: string): nat {
    if s == [] then 0 else (if s[0] == '-' then 1 else 0) + Hyphens(s[1..])
  }

  /** The number of whitespace characters in `s`. */
  function Spaces(s: string): nat {
    if s == [] then 0 else (if IsSpace(s[0]) then 1 else 0) + Spaces(s[1..])
  }

  /** The number of maximal whitespace runs in `s`, each counted at its last character. */
  function SpaceRuns(s: string): nat {
    if s == [] then 0
    else (if IsSpace(s[0]) && (|s| == 1 || !IsSpace(s[1])) then 1 else 0) + SpaceRuns(s[1..])
  }

  /** Skipping a leading whitespace run removes only whitespace. */
  lemma {:induction false} SkipRunKeeps(s: string)
    ensures Erase(TrimStart(s)) == Erase(s)
    ensures Hyphens(TrimStart(s)) == Hyphens(s)
    ensures |s| - |TrimStart(s)| == Spaces(s) - Spaces(TrimStart(s))
    decreases |s|
  {
    if s != [] && IsSpace(s[0]) {
      SkipRunKeeps(s[1..]);
      assert s[0] != '-';
    }
  }

  /** Skipping a leading whitespace run removes exactly one run. */
  lemma {:induction false} SkipRunCount(s: string)
    requires s != [] && IsSpace(s[0])
    ensures SpaceRuns(s) == 1 + SpaceRuns(TrimStart(s))
    decreases |s|
  {
    var t := s[1..];
    if t != [] && IsSpace(t[0]) {
      SkipRunCount(t);
    } else {
      assert TrimStart(t) == t;
    }
  }

  /**
   * The characters other than whitespace and hyphens come out unchanged and in order;
   * exactly one hyphen is added per whitespace run, and every whitespace character is gone.
   */
  lemma {:induction false} HyphenateSpacesCounts(s: string)
    ensures Erase(HyphenateSpaces(s)) == Erase(s)
    ensures Hyphens(HyphenateSpaces(s)) == Hyphens(s) + SpaceRuns(s)
    ensures |HyphenateSpaces(s)| == |s| - Spaces(s) + SpaceRuns(s)
    decreases |s|
  {
    if s != [] {
      var r := HyphenateSpaces(s);
      if IsSpace(s[0]) {
        var t := TrimStart(s[1..]);
        HyphenateSpacesCounts(t);
        SkipRunKeeps(s[1..]);
        SkipRunCount(s);
        assert r == "-" + HyphenateSpaces(t);
        assert r[1..] == HyphenateSpaces(t);
      } else {
        HyphenateSpacesCounts(s[1..]);
        assert r[1..] == HyphenateSpaces(s[1..]);
      }
    }
  }

  /** A string without whitespace is left as it is. */
  lemma {:induction false} HyphenateNoSpace(s: string)
    requires NoSpace(s)
    ensures HyphenateSpaces(s) == s
    decreases |s|
  {
    if s != [] {
      HyphenateNoSpace(s[1..]);
    }
  }

  /** Replacing whitespace runs a second time changes nothing. */
  lemma HyphenateSpacesIdempotent(s: string)
    ensures HyphenateSpaces(HyphenateSpaces(s)) == HyphenateSpaces(s)
  {
    HyphenateNoSpace(HyphenateSpaces(s));
  }

  // ---------------------------------------------------------------------------
  // A heading made of words

  lemma {:induction false} ToLowerCaseAppend(a: string, b: string)
    ensures ToLowerCase(a + b) == ToLowerCase(a) + ToLowerCase(b)
  {
    assert |ToLowerCase(a + b)| == |ToLowerCase(a) + ToLowerCase(b)|;
    forall i | 0 <= i < |a + b|
      ensures ToLowerCase(a + b)[i] == (ToLowerCase(a) + ToLowerCase(b))[i]
    {
    }
  }

  /** Lower-casing never turns a non-whitespace character into whitespace. */
  lemma ToLowerCaseNoSpace(s: string)
    requires NoSpace(s)
    ensures NoSpace(ToLowerCase(s))
  {
    forall i | 0 <= i < |s| ensures !IsSpace(ToLowerCase(s)[i]) {
      assert !IsSpace(s[i]);
    }
  }

  /** A word without whitespace passes through the hyphenation untouched. */
  lemma {:induction false} HyphenateWord(w: string, t: string)
    requires NoSpace(w)
    ensures HyphenateSpaces(w + t) == w + HyphenateSpaces(t)
    decreases |w|
  {
    if w == [] {
      assert w + t == t;
    } else {
      var u := w + t;
      assert u[0] == w[0] && !IsSpace(w[0]);
      assert u[1..] == w[1..] + t;
      assert HyphenateSpaces(u) == [w[0]] + HyphenateSpaces(w[1..] + t);
      HyphenateWord(w[1..], t);
      assert [w[0]] + (w[1..] + HyphenateSpaces(t)) == w + HyphenateSpaces(t);
    }
  }

  /** One space before a word becomes one hyphen. */
  lemma HyphenateGap(t: string)
    requires t != [] && !IsSpace(t[0])
    ensures HyphenateSpaces(" " + t) == "-" + HyphenateSpaces(t)
  {
    assert (" " + t)[1..] == t;
    assert TrimStart(t) == t;
  }

  /** The slug of a single word is the word lower-cased. */
  lemma SlugOfWord(w: string)
    requires NoSpace(w)
    ensures Slug(w) == ToLowerCase(w)
  {
    ToLowerCaseNoSpace(w);
    HyphenateNoSpace(ToLowerCase(w));
  }

  /** Lower-casing a word, one space and the rest of a heading. */
  lemma ToLowerCaseWords(w: string, rest: string)
    ensures ToLowerCase(w + " " + rest) == ToLowerCase(w) + (" " + ToLowerCase(rest))
  {
    ToLowerCaseAppend(w + " ", rest);
    ToLowerCaseAppend(w, " ");
    assert ToLowerCase(" ") == " ";
  }

  /** Hyphenating a word, one space and a rest that starts with a word. */
  lemma HyphenateWords(w: string, rest: string)
    requires NoSpace(w) && rest != [] && !IsSpace(rest[0])
    ensures HyphenateSpaces(w + (" " + rest)) == w + "-" + HyphenateSpaces(rest)
  {
    HyphenateWord(w, " " + rest);
    HyphenateGap(rest);
  }

  /** The slug of a word, one space and the rest of a heading. */
  lemma SlugOfWords(w: string, rest: string)
    requires NoSpace(w) && rest != [] && !IsSpace(rest[0])
    ensures Slug(w + " " + rest) == ToLowerCase(w) + "-" + Slug(rest)
  {
    var lr := ToLowerCase(rest);
    ToLowerCaseWords(w, rest);
    ToLowerCaseNoSpace(w);
    assert lr[0] == LowerAscii(rest[0]);
    HyphenateWords(ToLowerCase(w), lr);
  }

  // ---------------------------------------------------------------------------
  // The four table-of-contents headings and the ids of the page's sections
  //
  // Headings and ids are written word by word, joined by one space or one hyphen, only so
  // that the verifier can take them apart a word at a time; each concatenation is the same
  // string as on the page.

  /** The headings of the table of contents, as its buttons pass them to `handleNavigate`. */
  const TitleI: string :=
    "I." + " " + ("Quan" + " " + ("điểm" + " " + ("cơ" + " " + ("bản" + " " + ("của" + " " + ("chủ" + " " + ("nghĩa" + " " + "Mác-Lênin")))))))
  const TitleII: string :=
    "II." + " " + ("Giai" + " " + ("cấp" + " " + ("công" + " " + ("nhân" + " " + ("hiện" + " " + "nay")))))
  const TitleIII: string :=
    "III." + " " + ("Sứ" + " " + ("mệnh" + " " + ("lịch" + " " + ("sử" + " " + ("của" + " " + ("giai" + " " + ("cấp" + " " + ("công" + " " + ("nhân" + " " + ("Việt" + " " + "Nam"))))))))))
  const TitleIV: string :=
    "IV." + " " + ("Bác" + " " + ("sĩ," + " " + ("giảng" + " " + ("viên," + " " + ("IT" + " " + ("và" + " " + ("giai" + " " + ("cấp" + " " + ("công" + " " + "nhân")))))))))

  /** The ids of the four content sections of the page. */
  const IdI: string :=
    "i." + "-" + ("quan" + "-" + ("điểm" + "-" + ("cơ" + "-" + ("bản" + "-" + ("của" + "-" + ("chủ" + "-" + ("nghĩa" + "-" + "mác-lênin")))))))
  const IdII: string :=
    "ii." + "-" + ("giai" + "-" + ("cấp" + "-" + ("công" + "-" + ("nhân" + "-" + ("hiện" + "-" + "nay")))))
  const IdIII: string :=
    "iii." + "-" + ("sứ" + "-" + ("mệnh" + "-" + ("lịch" + "-" + ("sử" + "-" + ("của" + "-" + ("giai" + "-" + ("cấp" + "-" + ("công" + "-" + ("nhân" + "-" + ("việt" + "-" + "nam"))))))))))
  const IdIV: string :=
    "iv." + "-" + ("bác" + "-" + ("sĩ" + "-" + ("giảng" + "-" + ("viên" + "-" + ("it" + "-" + ("và" + "-" + ("giai" + "-" + ("cấp" + "-" + ("công" + "-" + "nhân")))))))))

  /** What heading IV turns into: the commas stay. */
  const SlugIV: string :=
    "iv." + "-" + ("bác" + "-" + ("sĩ," + "-" + ("giảng" + "-" + ("viên," + "-" + ("it" + "-" + ("và" + "-" + ("giai" + "-" + ("cấp" + "-" + ("công" + "-" + "nhân")))))))))

  /** The four content sections of the page, its only elements that carry an id. */
  datatype Section = SectionI | SectionII | SectionIII | SectionIV

  function SectionId(s: Section): string {
    match s
    case SectionI => IdI
    case SectionII => IdII
    case SectionIII => IdIII
    case SectionIV => IdIV
  }

  /** `document.getElementById(id)` on this page: the section with that id, if there is one. */
  function ElementById(id: string): (r: Option<Section>)
    ensures r.Some? ==> SectionId(r.value) == id
    ensures r.None? ==> forall s :: SectionId(s) != id
  {
    if id == IdI then Some(SectionI)
    else if id == IdII then Some(SectionII)
    else if id == IdIII then Some(SectionIII)
    else if id == IdIV then Some(SectionIV)
    else None
  }

  /**
   * `handleNavigate(title)`: the section scrolled into view, which is the one whose id is the
   * slug of the title; None when no element has that id and the button does nothing.
   */
  function Navigate(title: string): (r: Option<Section>)
    ensures r.Some? ==> SectionId(r.value) == Slug(title)
    ensures r.None? ==> forall s :: SectionId(s) != Slug(title)
  {
    ElementById(Slug(title))
  }

  // The words of each heading, a few at a time.

  /** `w` is a non-empty word without whitespace and `lower` its lower-case form. */
  predicate LowerWord(w: string, lower: string) {
    w != [] && NoSpace(w) && ToLowerCase(w) == lower
  }

  lemma WordsOfTitleIa()
    ensures LowerWord("I.", "i.") && LowerWord("Quan", "quan") && LowerWord("điểm", "điểm")
  {
  }

  lemma WordsOfTitleIb()
    ensures LowerWord("cơ", "cơ") && LowerWord("bản", "bản") && LowerWord("của", "của")
  {
  }

  lemma WordsOfTitleIc()
    ensures LowerWord("chủ", "chủ") && LowerWord("nghĩa", "nghĩa") && LowerWord("Mác-Lênin", "mác-lênin")
  {
  }

  lemma WordsOfTitleIIa()
    ensures LowerWord("II.", "ii.") && LowerWord("Giai", "giai") && LowerWord("cấp", "cấp")
  {
  }

  lemma WordsOfTitleIIb()
    ensures LowerWord("công", "công") && LowerWord("nhân", "nhân") && LowerWord("hiện", "hiện")
    ensures LowerWord("nay", "nay")
  {
  }

  lemma WordsOfTitleIIIa()
    ensures LowerWord("III.", "iii.") && LowerWord("Sứ", "sứ") && LowerWord("mệnh", "mệnh")
    ensures LowerWord("lịch", "lịch") && LowerWord("sử", "sử") && LowerWord("của", "của")
  {
  }

  lemma WordsOfTitleIIIb()
    ensures LowerWord("giai", "giai") && LowerWord("cấp", "cấp") && LowerWord("công", "công")
    ensures LowerWord("nhân", "nhân") && LowerWord("Việt", "việt") && LowerWord("Nam", "nam")
  {
  }

  lemma WordsOfTitleIVa()
    ensures LowerWord("IV.", "iv.") && LowerWord("Bác", "bác") && LowerWord("sĩ,", "sĩ,")
    ensures LowerWord("giảng", "giảng") && LowerWord("viên,", "viên,") && LowerWord("IT", "it")
  {
  }

  lemma WordsOfTitleIVb()
    ensures LowerWord("và", "và") && LowerWord("giai", "giai") && LowerWord("cấp", "cấp")
    ensures LowerWord("công", "công") && LowerWord("nhân", "nhân")
  {
  }

  // The slug of each heading, one word at a time.

  lemma SlugOfTitleI()
    ensures Slug(TitleI) == IdI
  {
    WordsOfTitleIa();
    WordsOfTitleIb();
    WordsOfTitleIc();
    var r8 := "Mác-Lênin";
    var r7 := "nghĩa" + " " + r8;
    var r6 := "chủ" + " " + r7;
    var r5 := "của" + " " + r6;
    var r4 := "bản" + " " + r5;
    var r3 := "cơ" + " " + r4;
    var r2 := "điểm" + " " + r3;
    var r1 := "Quan" + " " + r2;
    SlugOfWord(r8);
    SlugOfWords("nghĩa", r8);
    SlugOfWords("chủ", r7);
    SlugOfWords("của", r6);
    SlugOfWords("bản", r5);
    SlugOfWords("cơ", r4);
    SlugOfWords("điểm", r3);
    SlugOfWords("Quan", r2);
    SlugOfWords("I.", r1);
  }

  lemma SlugOfTitleII()
    ensures Slug(TitleII) == IdII
  {
    WordsOfTitleIIa();
    WordsOfTitleIIb();
    var r6 := "nay";
    var r5 := "hiện" + " " + r6;
    var r4 := "nhân" + " " + r5;
    var r3 := "công" + " " + r4;
    var r2 := "cấp" + " " + r3;
    var r1 := "Giai" + " " + r2;
    SlugOfWord(r6);
    SlugOfWords("hiện", r6);
    SlugOfWords("nhân", r5);
    SlugOfWords("công", r4);
    SlugOfWords("cấp", r3);
    SlugOfWords("Giai", r2);
    SlugOfWords("II.", r1);
  }

  lemma SlugOfTitleIII()
    ensures Slug(TitleIII) == IdIII
  {
    WordsOfTitleIIIa();
    WordsOfTitleIIIb();
    var r11 := "Nam";
    var r10 := "Việt" + " " + r11;
    var r9 := "nhân" + " " + r10;
    var r8 := "công" + " " + r9;
    var r7 := "cấp" + " " + r8;
    var r6 := "giai" + " " + r7;
    var r5 := "của" + " " + r6;
    var r4 := "sử" + " " + r5;
    var r3 := "lịch" + " " + r4;
    var r2 := "mệnh" + " " + r3;
    var r1 := "Sứ" + " " + r2;
    SlugOfWord(r11);
    SlugOfWords("Việt", r11);
    SlugOfWords("nhân", r10);
    SlugOfWords("công", r9);
    SlugOfWords("cấp", r8);
    SlugOfWords("giai", r7);
    SlugOfWords("của", r6);
    SlugOfWords("sử", r5);
    SlugOfWords("lịch", r4);
    SlugOfWords("mệnh", r3);
    SlugOfWords("Sứ", r2);
    SlugOfWords("III.", r1);
  }

  lemma SlugOfTitleIV()
    ensures Slug(TitleIV) == SlugIV
  {
    WordsOfTitleIVa();
    WordsOfTitleIVb();
    var r10 := "nhân";
    var r9 := "công" + " " + r10;
    var r8 := "cấp" + " " + r9;
    var r7 := "giai" + " " + r8;
    var r6 := "và" + " " + r7;
    var r5 := "IT" + " " + r6;
    var r4 := "viên," + " " + r5;
    var r3 := "giảng" + " " + r4;
    var r2 := "sĩ," + " " + r3;
    var r1 := "Bác" + " " + r2;
    SlugOfWord(r10);
    SlugOfWords("công", r10);
    SlugOfWords("cấp", r9);
    SlugOfWords("giai", r8);
    SlugOfWords("và", r7);
    SlugOfWords("IT", r6);
    SlugOfWords("viên,", r5);
    SlugOfWords("giảng", r4);
    SlugOfWords("sĩ,", r3);
    SlugOfWords("Bác", r2);
    SlugOfWords("IV.", r1);
  }

  // Where the table-of-contents buttons lead.

  /** The buttons of headings I, II and III scroll to the sections with those numbers. */
  lemma HeadingsIToIIIReachTheirSections()
    ensures Navigate(TitleI) == Some(SectionI)
    ensures Navigate(TitleII) == Some(SectionII)
    ensures Navigate(TitleIII) == Some(SectionIII)
  {
    SlugOfTitleI();
    SlugOfTitleII();
    SlugOfTitleIII();
    assert |IdI| == 43 && |IdII| == 31 && |IdIII| == 52;
  }

  /** The slug of heading IV keeps its commas, so no element has it as id and the button does nothing. */
  lemma HeadingIVGoesNowhere()
    ensures Slug(TitleIV) != IdIV
    ensures Navigate(TitleIV) == None
  {
    SlugOfTitleIV();
    assert |SlugIV| == 48;
    assert |IdI| == 43 && |IdII| == 31 && |IdIII| == 52 && |IdIV| == 46;
  }

  /** The first character of a slug is the first character of the title, lower-cased. */
  lemma SlugHead(title: string)
    requires title != [] && !IsSpace(title[0])
    ensures Slug(title) != [] && Slug(title)[0] == LowerAscii(title[0])
  {
    var l := ToLowerCase(title);
    assert l[0] == LowerAscii(title[0]);
    assert !IsSpace(l[0]);
  }

  /**
   * Every sub-heading starts with its number and every id of the page with 'i', so the
   * sub-heading buttons do nothing.
   */
  lemma SubheadingGoesNowhere(sub: string)
    requires sub != [] && '0' <= sub[0] <= '9'
    ensures Navigate(sub) == None
  {
    SlugHead(sub);
    assert IdI[0] == 'i' && IdII[0] == 'i' && IdIII[0] == 'i' && IdIV[0] == 'i';
  }

  // ---------------------------------------------------------------------------
  // The menu button

  /** The page's own state that the model keeps: whether the table of contents is shown. */
  class HistoricalMissionPage {
    var showTOC: bool

    /** The table of contents starts hidden. */
    constructor()
      ensures !showTOC
    {
      showTOC := false;
    }

    /** The menu button shows a hidden table of contents and hides a shown one. */
    method ToggleTOC()
      modifies this
      ensures showTOC == !old(showTOC)
    {
      showTOC := !showTOC;
    }
  }

  /** Pressing the menu button twice leaves the table of contents as it was. */
  method ToggleTwice(page: HistoricalMissionPage)
    modifies page
    ensures page.showTOC == old(page.showTOC)
  {
    page.ToggleTOC();
    page.ToggleTOC();
  }
}
