/*
 * The precautions panel of the result page: the `diseasePrecautions` table,
 * its lookup with the fallback to the entry for normal skin, the HTML that
 * `displayPrecautions` assembles into the panel, and the numbered lines the
 * PDF report draws for the same list.
 *
 * The template literals of the source use CR LF line ends, which a
 * JavaScript template literal reads as a single line feed.
 */
module Precautions {
  import opened Text

  /** One entry of `diseasePrecautions`: a warning and the list of precautions. */
  datatype DiseaseInfo = DiseaseInfo(warning: string, precautions: seq<string>)

  /** The entry for Measles. */
  const MeaslesInfo := DiseaseInfo(
    "Measles is a highly contagious viral infection.",
    [
      "Maintain proper vaccination status - MMR vaccine is highly effective",
      "Keep hands clean and wash frequently with soap and water",
      "Avoid touching face, eyes, nose, and mouth",
      "Maintain respiratory hygiene by covering coughs and sneezes",
      "Ensure proper ventilation in living spaces",
      "Eat healthy foods rich in vitamins A, C, and D to boost immunity",
      "Get adequate sleep (7-9 hours) to support immune function",
      "Avoid sharing personal items like towels, utensils, and cups",
      "Keep living spaces clean and disinfected",
      "Consult a healthcare professional immediately if symptoms appear"
    ])

  /** The entry for Monkeypox. */
  const MonkeypoxInfo := DiseaseInfo(
    "Monkeypox is a viral infection that spreads through direct contact.",
    [
      "Practice good personal hygiene and wash hands regularly",
      "Avoid direct contact with infected individuals or their lesions",
      "Do not share clothing, towels, or bedding",
      "Maintain clean and hygienic living and working environments",
      "Eat nutritious foods with balanced nutrients to support immunity",
      "Stay hydrated by drinking plenty of water",
      "Get regular physical activity to strengthen immune system",
      "Avoid touching animals or animal products from unknown sources",
      "Keep cuts and wounds covered and clean",
      "Seek immediate medical attention if symptoms develop"
    ])

  /** The entry for Chickenpox. */
  const ChickenpoxInfo := DiseaseInfo(
    "Chickenpox is a highly contagious viral infection.",
    [
      "Ensure vaccination with varicella vaccine for prevention",
      "Maintain strict hand hygiene to prevent spreading infection",
      "Keep fingernails short to avoid scratching lesions",
      "Isolate from others if infected to prevent transmission",
      "Keep skin clean with gentle bathing in lukewarm water",
      "Eat healthy, nutrient-rich foods to support recovery",
      "Consume foods rich in vitamin C for immune support",
      "Drink adequate water and fluids for hydration",
      "Get adequate rest and sleep for faster recovery",
      "Wear clean, loose-fitting clothes to prevent irritation",
      "Use prescribed medications as directed by healthcare provider"
    ])

  /** The entry for Normal. */
  const NormalInfo := DiseaseInfo(
    "Your skin appears to be in normal, healthy condition.",
    [
      "Continue maintaining good personal hygiene practices",
      "Wash hands regularly with soap and water for at least 20 seconds",
      "Keep your living spaces clean and well-organized",
      "Maintain a balanced diet rich in fruits and vegetables",
      "Stay hydrated by drinking 7-8 glasses of water daily",
      "Get regular physical exercise (at least 30 minutes daily)",
      "Ensure proper sleep and rest (7-9 hours per night)",
      "Protect skin from excessive sun exposure with sunscreen",
      "Avoid sharing personal items like towels and razors",
      "Keep vaccinations up to date as recommended by healthcare providers"
    ])

  /** `diseasePrecautions`, keyed by the predicted class. */
  const DiseasePrecautions: map<string, DiseaseInfo> := map[
    "Measles" := MeaslesInfo,
    "Monkeypox" := MonkeypoxInfo,
    "Chickenpox" := ChickenpoxInfo,
    "Normal" := NormalInfo
  ]

  /** A non-empty warning and a non-empty list of non-empty precautions. */
  predicate WellFormed(info: DiseaseInfo)
  {
    info.warning != [] && info.precautions != [] &&
    forall i | 0 <= i < |info.precautions| :: info.precautions[i] != []
  }

  /** `diseasePrecautions[disease] || diseasePrecautions['Normal']` */
  function LookupPrecautions(disease: string): (info: DiseaseInfo)
    ensures disease in DiseasePrecautions ==> info == DiseasePrecautions[disease]
    ensures disease !in DiseasePrecautions ==> info == DiseasePrecautions["Normal"]
  {
    if disease in DiseasePrecautions then DiseasePrecautions[disease] else DiseasePrecautions["Normal"]
  }

  lemma MeaslesWellFormed()
    ensures WellFormed(MeaslesInfo) && |MeaslesInfo.precautions| == 10
  {
  }

  lemma MonkeypoxWellFormed()
    ensures WellFormed(MonkeypoxInfo) && |MonkeypoxInfo.precautions| == 10
  {
  }

  lemma ChickenpoxWellFormed()
    ensures WellFormed(ChickenpoxInfo) && |ChickenpoxInfo.precautions| == 11
  {
  }

  lemma NormalWellFormed()
    ensures WellFormed(NormalInfo) && |NormalInfo.precautions| == 10
  {
  }

  /**
   * The table holds exactly the four classes the model predicts; every entry
   * is well formed, Chickenpox lists eleven precautions and the others ten.
   */
  lemma TableShape()
    ensures DiseasePrecautions.Keys == {"Measles", "Monkeypox", "Chickenpox", "Normal"}
    ensures forall d | d in DiseasePrecautions :: WellFormed(DiseasePrecautions[d])
    ensures |DiseasePrecautions["Chickenpox"].precautions| == 11
    ensures forall d | d in DiseasePrecautions && d != "Chickenpox" :: |DiseasePrecautions[d].precautions| == 10
  {
    MeaslesWellFormed();
    MonkeypoxWellFormed();
    ChickenpoxWellFormed();
    NormalWellFormed();
  }

  /**
   * The lookup is total: whatever the class, it yields one of the table's
   * entries, and any name outside the table yields the entry for normal skin.
   */
  lemma LookupIsTotal(disease: string)
    ensures LookupPrecautions(disease) in DiseasePrecautions.Values
    ensures WellFormed(LookupPrecautions(disease))
    ensures 10 <= |LookupPrecautions(disease).precautions| <= 11
    ensures disease !in {"Measles", "Monkeypox", "Chickenpox", "Normal"} ==> LookupPrecautions(disease) == NormalInfo
  {
    TableShape();
    var key := if disease in DiseasePrecautions then disease else "Normal";
    assert LookupPrecautions(disease) == DiseasePrecautions[key];
  }

  // ---------------------------------------------------------------------------
  // The HTML of `displayPrecautions`
  // ---------------------------------------------------------------------------

  /** The warning banner up to the emphasised warning. */
  const BannerStart := "\n        <div class=\"disease-warning\">\n            ⚠️ "

  /** The warning itself, emphasised. */
  function Strong(warning: string): string
  {
    "<strong>" + warning + "</strong>"
  }

  const BannerEnd := "\n        </div>\n        "

  const ListHeader := "<h3>🛡️ Recommended Precautions & Health Guidelines</h3>"

  const ListStart := "\n        <ul>\n    "

  const ListEnd := "\n        </ul>\n        "

  /** The fixed block that closes the panel. */
  const ImportantNote :=
    "<div style=\"margin-top: 15px; padding-top: 15px; border-top: 1px solid #d0d7ff; font-size: 0.9em; color: #666;\">\n" +
    "            <strong>💡 Important Note:</strong> This prediction is based on image analysis. Please consult with a healthcare professional for proper diagnosis and treatment. This tool is for informational purposes only and should not replace professional medical advice.\n" +
    "        </div>\n    "

  /** The first template literal of `displayPrecautions`. */
  function Opening(warning: string): string
  {
    BannerStart + Strong(warning) + BannerEnd + ListHeader + ListStart
  }

  /** `<li>${precaution}</li>` */
  function ListItem(precaution: string): string
  {
    "<li>" + precaution + "</li>"
  }

  /** The list items of the precautions, in list order. */
  function Items(ps: seq<string>): string
  {
    if ps == [] then [] else ListItem(ps[0]) + Items(ps[1..])
  }

  /** The second template literal of `displayPrecautions`. */
  const Closing := ListEnd + ImportantNote

  /** The whole panel `displayPrecautions` writes for an entry. */
  function PrecautionsHtml(info: DiseaseInfo): string
  {
    Opening(info.warning) + Items(info.precautions) + Closing
  }

  lemma {:induction false} ItemsAppend(a: seq<string>, b: seq<string>)
    ensures Items(a + b) == Items(a) + Items(b)
    decreases |a|
  {
    if a == [] {
      assert a + b == b;
    } else {
      assert (a + b)[1..] == a[1..] + b;
      ItemsAppend(a[1..], b);
    }
  }

  /** Appending one precaution appends its list item. */
  lemma ItemsSnoc(ps: seq<string>, i: nat)
    requires i < |ps|
    ensures Items(ps[..i + 1]) == Items(ps[..i]) + ListItem(ps[i])
  {
    assert ps[..i + 1] == ps[..i] + [ps[i]];
    ItemsAppend(ps[..i], [ps[i]]);
    assert [ps[i]][1..] == [];
  }

  /**
   * The list item of the i-th precaution sits right after the items of the
   * precautions before it: the items keep the order of the list.
   */
  lemma ItemPosition(ps: seq<string>, i: nat)
    requires i < |ps|
    ensures OccursAt(Items(ps), ListItem(ps[i]), |Items(ps[..i])|)
  {
    assert ps == ps[..i] + ps[i..];
    ItemsAppend(ps[..i], ps[i..]);
    assert ps[i..][1..] == ps[i + 1..];
    var rest := Items(ps[i + 1..]);
    assert Items(ps) == Items(ps[..i]) + ListItem(ps[i]) + rest;
    assert Items(ps)[|Items(ps[..i])|..|Items(ps[..i])| + |ListItem(ps[i])|] == ListItem(ps[i]);
  }

  /** One list item adds exactly one `<li>` to the text after it. */
  lemma ItemCountStep(p: string, rest: string)
    requires '<' !in p
    ensures Occurrences(ListItem(p) + rest, "<li>") == 1 + Occurrences(rest, "<li>")
  {
    var s := ListItem(p) + rest;
    assert s == "<li>" + p + "</li>" + rest;
    assert OccursAt(s, "<li>", 0);
    assert s[1..] == ("li>" + p) + ("</li>" + rest);
    OccurrencesSkip("li>" + p, "</li>" + rest, "<li>");
    var t := "</li>" + rest;
    assert t[1] == '/';
    assert t[1..] == "/li>" + rest;
    OccurrencesSkip("/li>", rest, "<li>");
  }

  /** Exactly one `<li>` per precaution, when no precaution holds markup of its own. */
  lemma {:induction false} ItemsCount(ps: seq<string>)
    requires forall i | 0 <= i < |ps| :: '<' !in ps[i]
    ensures Occurrences(Items(ps), "<li>") == |ps|
    decreases |ps|
  {
    if ps != [] {
      ItemCountStep(ps[0], Items(ps[1..]));
      ItemsCount(ps[1..]);
    }
  }

  /** k sits right after a in a + k + b. */
  lemma OccursBetween(a: string, k: string, b: string)
    ensures OccursAt(a + k + b, k, |a|)
  {
    assert (a + k + b)[|a|..|a| + |k|] == k;
  }

  /** An occurrence stays where it is when text is appended. */
  lemma OccursExtended(a: string, b: string, k: string, i: nat)
    requires OccursAt(a, k, i)
    ensures OccursAt(a + b, k, i)
  {
    assert (a + b)[i..i + |k|] == a[i..i + |k|];
  }

  /** The order of the parts of a panel assembled from any seven pieces. */
  lemma PanelOrder(p0: string, w: string, p1: string, h: string, p2: string, items: string, p3: string, note: string)
    ensures var html := p0 + w + p1 + h + p2 + items + (p3 + note);
      OccursAt(html, w, |p0|) &&
      OccursAt(html, h, |p0| + |w| + |p1|) &&
      OccursAt(html, items, |p0 + w + p1 + h + p2|) &&
      OccursAt(html, note, |html| - |note|)
  {
    var x1 := p0 + w;
    var x3 := x1 + p1 + h;
    var x5 := x3 + p2 + items;
    var html := x5 + (p3 + note);
    OccursBetween(p0, w, []);
    assert p0 + w + [] == x1;
    OccursExtended(x1, p1, w, |p0|);
    OccursExtended(x1 + p1, h, w, |p0|);
    OccursBetween(x1 + p1, h, []);
    assert x1 + p1 + h + [] == x3;
    OccursExtended(x3, p2, w, |p0|);
    OccursExtended(x3, p2, h, |x1 + p1|);
    OccursExtended(x3 + p2, items, w, |p0|);
    OccursExtended(x3 + p2, items, h, |x1 + p1|);
    OccursBetween(x3 + p2, items, []);
    assert x3 + p2 + items + [] == x5;
    OccursExtended(x5, p3 + note, w, |p0|);
    OccursExtended(x5, p3 + note, h, |x1 + p1|);
    OccursExtended(x5, p3 + note, items, |x3 + p2|);
    assert html == x5 + p3 + note + [];
    OccursBetween(x5 + p3, note, []);
  }

  /**
   * The layout of the panel: the emphasised warning comes first, the list
   * header after it, then the list items, and the Important Note block
   * closes the panel.
   */
  lemma HtmlLayout(info: DiseaseInfo)
    ensures var html := PrecautionsHtml(info);
      var a := |BannerStart|;
      var b := a + |Strong(info.warning)| + |BannerEnd|;
      var c := |Opening(info.warning)|;
      OccursAt(html, Strong(info.warning), a) &&
      OccursAt(html, ListHeader, b) &&
      OccursAt(html, Items(info.precautions), c) && b + |ListHeader| <= c &&
      OccursAt(html, ImportantNote, |html| - |ImportantNote|)
  {
    PanelOrder(BannerStart, Strong(info.warning), BannerEnd, ListHeader, ListStart, Items(info.precautions), ListEnd, ImportantNote);
  }

  /** The items of a list embedded anywhere keep their order there. */
  lemma ItemInPanel(pre: string, ps: seq<string>, post: string, i: nat)
    requires i < |ps|
    ensures OccursAt(pre + Items(ps) + post, ListItem(ps[i]), |pre| + |Items(ps[..i])|)
  {
    ItemPosition(ps, i);
    var j := |Items(ps[..i])|;
    var k := ListItem(ps[i]);
    var html := pre + Items(ps) + post;
    assert html[|pre|..|pre| + |Items(ps)|] == Items(ps);
    assert html[|pre| + j..|pre| + j + |k|] == Items(ps)[j..j + |k|];
  }

  /**
   * The panel of an entry lists each of its precautions as a list item, in
   * list order, after the opening.
   */
  lemma EveryPrecautionListed(info: DiseaseInfo, i: nat)
    requires i < |info.precautions|
    ensures OccursAt(PrecautionsHtml(info), ListItem(info.precautions[i]), |Opening(info.warning)| + |Items(info.precautions[..i])|)
  {
    var pre, post := Opening(info.warning), Closing;
    assert PrecautionsHtml(info) == pre + Items(info.precautions) + post;
    ItemInPanel(pre, info.precautions, post, i);
  }

  /** The `forEach` of `displayPrecautions`: the opening, one item per precaution, the closing. */
  method BuildPrecautionsHtml(info: DiseaseInfo) returns (html: string)
    ensures html == PrecautionsHtml(info)
  {
    var ps := info.precautions;
    html := Opening(info.warning);
    for i := 0 to |ps|
      invariant html == Opening(info.warning) + Items(ps[..i])
    {
      ItemsSnoc(ps, i);
      html := html + ListItem(ps[i]);
    }
    assert ps[..|ps|] == ps;
    html := html + Closing;
  }

  /** The `precautionsSection` element of the page. */
  class Section {
    var innerHTML: string

    constructor()
      ensures innerHTML == ""
    {
      innerHTML := "";
    }
  }

  /**
   * `displayPrecautions`: with no section on the page nothing happens;
   * otherwise the section shows the panel for the class.
   */
  method DisplayPrecautions(section: Section?, disease: string)
    modifies section
    ensures section != null ==> section.innerHTML == PrecautionsHtml(LookupPrecautions(disease))
  {
    if section == null {
      return;
    }
    section.innerHTML := "";
    var info := LookupPrecautions(disease);
    var html := BuildPrecautionsHtml(info);
    section.innerHTML := html;
  }

  // ---------------------------------------------------------------------------
  // The numbered list of the PDF report
  // ---------------------------------------------------------------------------

  /** `${index + 1}. ${precaution}` */
  function NumberedLine(index: nat, precaution: string): string
  {
    Decimal(index + 1) + ". " + precaution
  }

  /** A numbered line reads back as its number, 1-based, followed by the precaution. */
  lemma NumberedLineParts(index: nat, precaution: string)
    ensures var line := NumberedLine(index, precaution);
      var digits := LeadingDigits(line);
      ParseDecimal(digits) == index + 1 && line[|digits|..] == ". " + precaution
  {
    var digits := Decimal(index + 1);
    var rest := ". " + precaution;
    assert rest[0] == '.';
    assert NumberedLine(index, precaution) == digits + rest;
    LeadingDigitsOf(digits, rest);
    DecimalRoundTrip(index + 1);
  }

  /**
   * The texts the report's precautions loop draws, one per precaution in
   * list order and numbered consecutively from 1.
   */
  method NumberPrecautions(ps: seq<string>) returns (lines: seq<string>)
    ensures |lines| == |ps|
    ensures forall i | 0 <= i < |ps| :: lines[i] == NumberedLine(i, ps[i])
  {
    lines := [];
    for index := 0 to |ps|
      invariant |lines| == index
      invariant forall i | 0 <= i < index :: lines[i] == NumberedLine(i, ps[i])
    {
      lines := lines + [NumberedLine(index, ps[index])];
    }
  }
}
