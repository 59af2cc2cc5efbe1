/**
 * The platform checklist table and the analysis prompt template
 * (server/gemini-helpers.ts). Both are pure functions of their inputs: the
 * prompt is a template literal, modelled as the concatenation of its fixed
 * literal chunks and its interpolated values, so that lemmas can say where
 * each value lands without restating the prose.
 */
module GeminiHelpers {
  import opened Text

  /** The four categorical fields the caller supplies; no validation here. */
  datatype AnalysisContext = AnalysisContext(
    industry: string,
    platform: string,
    targetAudience: string,
    goal: string)

  // ----- Platform checklist lookup -----

  /** The fixed text of `getPlatformSpecificChecks`: the five table entries
      and the three chunks of the generic fallback. The lookup is defined
      for any such text; `SourceChecksText` is the one the source holds. */
  datatype ChecksText = ChecksText(
    instagram: string,
    facebook: string,
    tiktok: string,
    linkedin: string,
    twitter: string,
    fallback1: string,
    fallback2: string,
    fallback3: string)

  /** The checklist table, keyed by lower-case platform name. */
  function Table(x: ChecksText): (m: map<string, string>)
    ensures m.Keys == {"instagram", "facebook", "tiktok", "linkedin", "twitter"}
  {
    map[
      "instagram" := x.instagram,
      "facebook" := x.facebook,
      "tiktok" := x.tiktok,
      "linkedin" := x.linkedin,
      "twitter" := x.twitter
    ]
  }

  lemma TableKeysAreLowerCase(x: ChecksText)
    ensures forall key :: key in Table(x) ==> IsLowerCase(key)
  {
    assert IsLowerCase("instagram") && IsLowerCase("facebook") && IsLowerCase("tiktok");
    assert IsLowerCase("linkedin") && IsLowerCase("twitter");
  }

  /** The generic checklist for a platform missing from the table: three
      fixed chunks with the platform, as given, interpolated between them. */
  function FallbackPieces(x: ChecksText, platform: string): seq<string>
  {
    [x.fallback1, platform, x.fallback2, platform, x.fallback3]
  }

  function Fallback(x: ChecksText, platform: string): string
  {
    Concat(FallbackPieces(x, platform))
  }

  /** `checks[platform.toLowerCase()] || fallback`: the table entry of the
      lower-cased platform when there is one and it is non-empty, otherwise
      the fallback. The lookup is stated without `ToLowerAscii`: a key is
      selected exactly when the platform is that key with some of its
      letters in upper case. */
  function ChecksFor(x: ChecksText, platform: string): (r: string)
    ensures forall key :: key in Table(x) && CaseVariant(platform, key) && Table(x)[key] != "" ==>
      r == Table(x)[key]
    ensures (forall key :: key in Table(x) && CaseVariant(platform, key) ==> Table(x)[key] == "") ==>
      r == Fallback(x, platform)
  {
    TableKeysAreLowerCase(x);
    LowerIffCaseVariant(platform, "instagram");
    LowerIffCaseVariant(platform, "facebook");
    LowerIffCaseVariant(platform, "tiktok");
    LowerIffCaseVariant(platform, "linkedin");
    LowerIffCaseVariant(platform, "twitter");
    var key := ToLowerAscii(platform);
    if key in Table(x) && Table(x)[key] != "" then Table(x)[key] else Fallback(x, platform)
  }

  /** `getPlatformSpecificChecks` on the source's own text. */
  function GetPlatformSpecificChecks(platform: string): string
  {
    ChecksFor(SourceChecksText, platform)
  }

  /** Every entry of the source's table is non-empty, so its `||` falls back
      only for a platform missing from the table. */
  lemma SourceEntriesNonEmpty()
    ensures forall key :: key in Table(SourceChecksText) ==> Table(SourceChecksText)[key] != ""
  {
    assert InstagramChecks[0] == FacebookChecks[0] == TiktokChecks[0] == '\n';
    assert LinkedinChecks[0] == TwitterChecks[0] == '\n';
  }

  /** The source's lookup: a platform that is a table key in any mix of
      letter cases gets that key's checklist; any other platform gets the
      fallback with its own spelling. */
  lemma SourceLookup(platform: string)
    ensures var r, m := GetPlatformSpecificChecks(platform), Table(SourceChecksText);
      && (forall key :: key in m && CaseVariant(platform, key) ==> r == m[key])
      && ((forall key :: key in m ==> !CaseVariant(platform, key)) ==> r == Fallback(SourceChecksText, platform))
  {
    SourceEntriesNonEmpty();
  }

  /** The generic checklist is the fixed fallback text with the platform,
      exactly as the caller spelled it, interpolated twice. */
  lemma FallbackEchoesPlatform(x: ChecksText, platform: string)
    ensures var f, i := Fallback(x, platform), |x.fallback1|;
      var j := i + |platform| + |x.fallback2|;
      && OccursAt(f, x.fallback1, 0)
      && OccursAt(f, platform, i)
      && OccursAt(f, x.fallback2, i + |platform|)
      && OccursAt(f, platform, j)
      && OccursAt(f, x.fallback3, j + |platform|)
      && |f| == j + |platform| + |x.fallback3|
  {
    var ps := FallbackPieces(x, platform);
    assert Offset(ps, 0) == 0 by { assert ps[..0] == []; }
    OnePiece(ps, 0);
    OnePiece(ps, 1);
    OnePiece(ps, 2);
    OnePiece(ps, 3);
    OnePiece(ps, 4);
    assert Offset(ps, 5) == |Fallback(x, platform)| by { assert ps[..5] == ps; }
  }

  /** Spellings of a known platform in any case select that platform's
      table entry. */
  lemma LookupIgnoresCase(x: ChecksText)
    requires x.instagram != "" && x.tiktok != "" && x.linkedin != ""
    ensures ChecksFor(x, "Instagram") == ChecksFor(x, "INSTAGRAM") == ChecksFor(x, "instagram") == x.instagram
    ensures ChecksFor(x, "TikTok") == x.tiktok
    ensures ChecksFor(x, "LinkedIn") == x.linkedin
  {
    assert CaseVariant("Instagram", "instagram");
    assert CaseVariant("INSTAGRAM", "instagram");
    assert CaseVariant("instagram", "instagram");
    assert CaseVariant("TikTok", "tiktok");
    assert CaseVariant("LinkedIn", "linkedin");
  }

  /** Two platform spellings that lower-case alike and name a table entry
      get the same checklist. */
  lemma SameKeySameChecks(x: ChecksText, p: string, q: string)
    requires ToLowerAscii(p) == ToLowerAscii(q)
    requires ToLowerAscii(p) in Table(x) && Table(x)[ToLowerAscii(p)] != ""
    ensures ChecksFor(x, p) == ChecksFor(x, q) == Table(x)[ToLowerAscii(p)]
  {
    var key := ToLowerAscii(p);
    TableKeysAreLowerCase(x);
    LowerIffCaseVariant(p, key);
    LowerIffCaseVariant(q, key);
  }

  /** A platform that lower-cases to no table key, for instance "pinterest",
      gets the fallback with its own spelling. */
  lemma UnknownPlatformFallsBack(x: ChecksText, platform: string)
    requires ToLowerAscii(platform) !in Table(x)
    ensures ChecksFor(x, platform) == Fallback(x, platform)
  {
    TableKeysAreLowerCase(x);
    forall key | key in Table(x) ensures !CaseVariant(platform, key) {
      LowerIffCaseVariant(platform, key);
    }
  }

  // ----- The lookup as written: a plain object also inherits members -----

  /** What `checks[key]` yields on the object literal of the source: one of
      its own string entries, a member every object inherits from
      Object.prototype (a function, or for `__proto__` the prototype object
      itself; truthy, and not a string), or undefined. */
  datatype JsValue = Str(s: string) | InheritedMember(name: string) | Undefined

  /** The names Object.prototype provides to every plain object. */
  const ObjectPrototypeMembers: set<string> :=
    {"constructor", "__proto__", "__defineGetter__", "__defineSetter__",
     "__lookupGetter__", "__lookupSetter__", "hasOwnProperty", "isPrototypeOf",
     "propertyIsEnumerable", "toLocaleString", "toString", "valueOf"}

  function RecordGet(x: ChecksText, key: string): JsValue
  {
    if key in Table(x) then Str(Table(x)[key])
    else if key in ObjectPrototypeMembers then InheritedMember(key)
    else Undefined
  }

  /** `checks[platform.toLowerCase()] || fallback` with JavaScript's property
      lookup: an inherited member is truthy, so it is returned in place of
      the fallback. The result equals the table-or-fallback lookup for every
      platform except those that lower-case to an inherited name. */
  function ChecksForAsWritten(x: ChecksText, platform: string): (r: JsValue)
    ensures ToLowerAscii(platform) !in ObjectPrototypeMembers ==> r == Str(ChecksFor(x, platform))
  {
    match RecordGet(x, ToLowerAscii(platform))
    case Str(s) => if s != "" then Str(s) else Str(Fallback(x, platform))
    case InheritedMember(name) => InheritedMember(name)
    case Undefined => Str(Fallback(x, platform))
  }

  /** The platform "Constructor" gets the inherited Object constructor
      instead of a checklist; the corrected lookup gives it the fallback. */
  lemma ConstructorPlatformSkipsFallback(x: ChecksText)
    ensures ChecksForAsWritten(x, "Constructor") == InheritedMember("constructor")
    ensures ChecksFor(x, "Constructor") == Fallback(x, "Constructor")
  {
    assert ToLowerAscii("Constructor") == "constructor";
    UnknownPlatformFallsBack(x, "Constructor");
  }

  /** A lower-cased string never equals a name holding an upper-case letter. */
  lemma LowerNeverEquals(platform: string, name: string, i: nat)
    requires i < |name| && 'A' <= name[i] <= 'Z'
    ensures ToLowerAscii(platform) != name
  {
  }

  /** Only "constructor" and "__proto__" are reachable: every other
      inherited name holds an upper-case letter. */
  lemma InheritedMembersReachable(x: ChecksText, platform: string)
    ensures ChecksForAsWritten(x, platform).InheritedMember?
        <==> ToLowerAscii(platform) in {"constructor", "__proto__"}
  {
    LowerNeverEquals(platform, "__defineGetter__", 8);
    LowerNeverEquals(platform, "__defineSetter__", 8);
    LowerNeverEquals(platform, "__lookupGetter__", 8);
    LowerNeverEquals(platform, "__lookupSetter__", 8);
    LowerNeverEquals(platform, "hasOwnProperty", 3);
    LowerNeverEquals(platform, "isPrototypeOf", 2);
    LowerNeverEquals(platform, "propertyIsEnumerable", 8);
    LowerNeverEquals(platform, "toLocaleString", 2);
    LowerNeverEquals(platform, "toString", 2);
    LowerNeverEquals(platform, "valueOf", 5);
  }

  // ----- The analysis prompt -----

  /** The fixed chunks of the prompt template, in order. Section `k` opens
      with `heading<k>` (with `heading<k>Open`, a field and ")" for sections
      4, 5 and 7); the `body` chunks surround the interpolated values. */
  datatype PromptText = PromptText(
    persona: string,
    opening: string,
    heading1: string,
    body1: string,
    heading2: string,
    body2a: string,
    body2b: string,
    heading3: string,
    body3: string,
    heading4Open: string,
    body4a: string,
    body4b: string,
    body4c: string,
    heading5Open: string,
    body5: string,
    heading6: string,
    body6: string,
    heading7Open: string,
    body7: string,
    heading8: string,
    body8: string,
    heading9: string,
    body9a: string,
    body9b: string,
    body9c: string,
    heading10: string,
    body10: string,
    closing: string)

  /** The chunks of the source's template literal. */
  const SourcePromptText: PromptText := PromptText(
    Persona,
    Opening,
    Section1Header,
    Section1Body,
    Section2Header,
    Section2BodyA,
    Section2BodyB,
    Section3Header,
    Section3Body,
    Section4HeaderOpen,
    Section4BodyA,
    Section4BodyB,
    Section4BodyC,
    Section5HeaderOpen,
    Section5Body,
    Section6Header,
    Section6Body,
    Section7HeaderOpen,
    Section7Body,
    Section8Header,
    Section8Body,
    Section9Header,
    Section9BodyA,
    Section9BodyB,
    Section9BodyC,
    Section10Header,
    Section10Body,
    Closing)

  /** The pieces of section `k` of the template literal: its heading, its
      fixed text and, in their places, the fields and the checklist `c`. */
  function SectionPieces(t: PromptText, ctx: AnalysisContext, c: string, k: int): seq<string>
    requires 1 <= k <= 10
  {
    match k
    case 1 => [t.heading1, t.body1]
    case 2 => [t.heading2, t.body2a, ctx.industry, t.body2b]
    case 3 => [t.heading3, t.body3]
    case 4 => [t.heading4Open, ctx.platform, HeadingClose,
               t.body4a, ctx.platform, t.body4b, c, t.body4c]
    case 5 => [t.heading5Open, ctx.targetAudience, HeadingClose, t.body5]
    case 6 => [t.heading6, t.body6]
    case 7 => [t.heading7Open, ctx.goal, HeadingClose, t.body7]
    case 8 => [t.heading8, t.body8]
    case 9 => [t.heading9, t.body9a, ctx.industry, t.body9b, ctx.platform, t.body9c]
    case 10 => [t.heading10, t.body10]
  }

  /** The text of section `k`, from its heading up to the next heading. */
  function Section(t: PromptText, ctx: AnalysisContext, c: string, k: int): string
    requires 1 <= k <= 10
  {
    Concat(SectionPieces(t, ctx, c, k))
  }

  /** The whole template: the persona sentence and opening line, the ten
      sections in order, and the closing instruction. */
  function PromptPieces(t: PromptText, ctx: AnalysisContext, c: string): (ps: seq<string>)
    ensures |ps| == 13
    ensures ps[0] == t.persona && ps[1] == t.opening && ps[12] == t.closing
    ensures forall k :: 1 <= k <= 10 ==> ps[k + 1] == Section(t, ctx, c, k)
  {
    var sections := Sections(t, ctx, c);
    var ps := [t.persona, t.opening] + sections + [t.closing];
    assert ps[2..12] == sections;
    ps
  }

  /** Sections 1 to 10, in order. */
  function Sections(t: PromptText, ctx: AnalysisContext, c: string): (r: seq<string>)
    ensures |r| == 10
    ensures forall i :: 0 <= i < 10 ==> r[i] == Section(t, ctx, c, i + 1)
  {
    seq(10, i requires 0 <= i < 10 => Section(t, ctx, c, i + 1))
  }

  function Render(t: PromptText, ctx: AnalysisContext, c: string): string
  {
    Concat(PromptPieces(t, ctx, c))
  }

  /** `buildAnalysisPrompt`: the modelled template with the platform's
      checklist spliced in. The lemmas below are stated for `Render` with
      any template text and any checklist, so they hold of this instance. */
  function BuildAnalysisPrompt(ctx: AnalysisContext): string
  {
    Render(SourcePromptText, ctx, GetPlatformSpecificChecks(ctx.platform))
  }

  /** Where section `k` starts in the prompt. */
  function SectionStart(t: PromptText, ctx: AnalysisContext, c: string, k: int): nat
    requires 1 <= k <= 10
  {
    Offset(PromptPieces(t, ctx, c), k + 1)
  }

  /** The heading line of section `k`, with its interpolated field. */
  function SectionHeading(t: PromptText, ctx: AnalysisContext, k: int): string
    requires 1 <= k <= 10
  {
    match k
    case 1 => t.heading1
    case 2 => t.heading2
    case 3 => t.heading3
    case 4 => t.heading4Open + ctx.platform + HeadingClose
    case 5 => t.heading5Open + ctx.targetAudience + HeadingClose
    case 6 => t.heading6
    case 7 => t.heading7Open + ctx.goal + HeadingClose
    case 8 => t.heading8
    case 9 => t.heading9
    case 10 => t.heading10
  }

  /** The text at `[i, i + len)` of the prompt lies in section `k`, after
      its heading. */
  ghost predicate InSectionBody(t: PromptText, ctx: AnalysisContext, c: string, k: int, i: int, len: int)
    requires 1 <= k <= 10
  {
    && SectionStart(t, ctx, c, k) + |SectionHeading(t, ctx, k)| <= i
    && i + len <= SectionStart(t, ctx, c, k) + |Section(t, ctx, c, k)|
  }

  /** Each section sits at its start, and the next section starts where it
      ends; the closing instruction starts where section 10 ends. */
  lemma SectionsInOrder(t: PromptText, ctx: AnalysisContext, c: string)
    ensures forall k :: 1 <= k <= 10 ==>
      OccursAt(Render(t, ctx, c), Section(t, ctx, c, k), SectionStart(t, ctx, c, k))
    ensures forall k :: 1 <= k < 10 ==>
      SectionStart(t, ctx, c, k) + |Section(t, ctx, c, k)| == SectionStart(t, ctx, c, k + 1)
    ensures var p := Render(t, ctx, c);
      SectionStart(t, ctx, c, 10) + |Section(t, ctx, c, 10)| == |p| - |t.closing|
  {
    var ps := PromptPieces(t, ctx, c);
    forall k | 1 <= k <= 10
      ensures OccursAt(Render(t, ctx, c), Section(t, ctx, c, k), SectionStart(t, ctx, c, k))
      ensures SectionStart(t, ctx, c, k) + |Section(t, ctx, c, k)| == Offset(ps, k + 2)
    {
      OnePiece(ps, k + 1);
    }
    LastPieceEnds(ps);
  }

  /** Every section opens with its heading. */
  lemma SectionOpensWithHeading(t: PromptText, ctx: AnalysisContext, c: string, k: int)
    requires 1 <= k <= 10
    ensures OccursAt(Section(t, ctx, c, k), SectionHeading(t, ctx, k), 0)
  {
    var ps := SectionPieces(t, ctx, c, k);
    assert Offset(ps, 0) == 0 by { assert ps[..0] == []; }
    if k == 4 || k == 5 || k == 7 {
      ThreePieces(ps, 0);
    } else {
      OnePiece(ps, 0);
    }
  }

  /** Heading `k` of the prompt sits at the start of section `k`. */
  lemma HeadingAt(t: PromptText, ctx: AnalysisContext, c: string, k: int)
    requires 1 <= k <= 10
    ensures OccursAt(Render(t, ctx, c), SectionHeading(t, ctx, k), SectionStart(t, ctx, c, k))
    ensures |SectionHeading(t, ctx, k)| <= |Section(t, ctx, c, k)|
  {
    SectionsInOrder(t, ctx, c);
    SectionOpensWithHeading(t, ctx, c, k);
    OccursWithin(Render(t, ctx, c), Section(t, ctx, c, k), SectionStart(t, ctx, c, k), SectionHeading(t, ctx, k), 0);
  }

  /** The prompt opens with the persona sentence. */
  lemma PromptStartsWithPersona(t: PromptText, ctx: AnalysisContext, c: string)
    ensures OccursAt(Render(t, ctx, c), t.persona, 0)
  {
    var ps := PromptPieces(t, ctx, c);
    assert ps[..0] == [];
    PieceOccurs(ps, 0);
  }

  /** The prompt closes with the formatting instruction. */
  lemma PromptEndsWithClosing(t: PromptText, ctx: AnalysisContext, c: string)
    ensures var p := Render(t, ctx, c); OccursAt(p, t.closing, |p| - |t.closing|)
  {
    var ps := PromptPieces(t, ctx, c);
    PieceOccurs(ps, 12);
    LastPieceEnds(ps);
  }

  /** The ten section headings appear in order 1 to 10, each ending before
      the next begins, and the last before the closing instruction. */
  lemma SectionHeadingsInOrder(t: PromptText, ctx: AnalysisContext, c: string)
    ensures forall k :: 1 <= k <= 10 ==>
      OccursAt(Render(t, ctx, c), SectionHeading(t, ctx, k), SectionStart(t, ctx, c, k))
    ensures forall k :: 1 <= k < 10 ==>
      SectionStart(t, ctx, c, k) + |SectionHeading(t, ctx, k)| <= SectionStart(t, ctx, c, k + 1)
    ensures SectionStart(t, ctx, c, 10) + |SectionHeading(t, ctx, 10)| <= |Render(t, ctx, c)| - |t.closing|
  {
    SectionsInOrder(t, ctx, c);
    forall k | 1 <= k <= 10
      ensures OccursAt(Render(t, ctx, c), SectionHeading(t, ctx, k), SectionStart(t, ctx, c, k))
      ensures |SectionHeading(t, ctx, k)| <= |Section(t, ctx, c, k)|
    {
      HeadingAt(t, ctx, c, k);
    }
  }

  /** Piece `j` of section `k`, if it comes after the heading, lies in the
      section's body. */
  lemma PieceInBody(t: PromptText, ctx: AnalysisContext, c: string, k: int, w: nat, j: nat)
    requires 1 <= k <= 10
    requires w <= j < |SectionPieces(t, ctx, c, k)|
    requires Concat(SectionPieces(t, ctx, c, k)[..w]) == SectionHeading(t, ctx, k)
    ensures var i := SectionStart(t, ctx, c, k) + Offset(SectionPieces(t, ctx, c, k), j);
      && OccursAt(Render(t, ctx, c), SectionPieces(t, ctx, c, k)[j], i)
      && InSectionBody(t, ctx, c, k, i, |SectionPieces(t, ctx, c, k)[j]|)
  {
    var ps := SectionPieces(t, ctx, c, k);
    SectionsInOrder(t, ctx, c);
    OnePiece(ps, j);
    OffsetMonotone(ps, w, j);
    OffsetMonotone(ps, j + 1, |ps|);
    assert Offset(ps, |ps|) == |Section(t, ctx, c, k)| by { assert ps[..|ps|] == ps; }
    OccursWithin(Render(t, ctx, c), Section(t, ctx, c, k), SectionStart(t, ctx, c, k), ps[j], Offset(ps, j));
  }

  /** `platform`, `targetAudience` and `goal` sit verbatim inside the
      headings of sections 4, 5 and 7, right after the heading's fixed text. */
  lemma FieldsInHeadings(t: PromptText, ctx: AnalysisContext, c: string)
    ensures var p := Render(t, ctx, c);
      && OccursAt(p, ctx.platform, SectionStart(t, ctx, c, 4) + |t.heading4Open|)
      && OccursAt(p, ctx.targetAudience, SectionStart(t, ctx, c, 5) + |t.heading5Open|)
      && OccursAt(p, ctx.goal, SectionStart(t, ctx, c, 7) + |t.heading7Open|)
  {
    FieldInHeading(t, ctx, c, 4);
    FieldInHeading(t, ctx, c, 5);
    FieldInHeading(t, ctx, c, 7);
  }

  /** The second piece of a section that has one follows the first. */
  lemma FieldInHeading(t: PromptText, ctx: AnalysisContext, c: string, k: int)
    requires 1 <= k <= 10
    requires |SectionPieces(t, ctx, c, k)| >= 2
    ensures var ps := SectionPieces(t, ctx, c, k);
      OccursAt(Render(t, ctx, c), ps[1], SectionStart(t, ctx, c, k) + |ps[0]|)
  {
    var ps := SectionPieces(t, ctx, c, k);
    SectionsInOrder(t, ctx, c);
    assert Offset(ps, 0) == 0 by { assert ps[..0] == []; }
    OffsetStep(ps, 0);
    OnePiece(ps, 1);
    OccursWithin(Render(t, ctx, c), Section(t, ctx, c, k), SectionStart(t, ctx, c, k), ps[1], |ps[0]|);
  }

  /** `industry` appears verbatim in the bodies of sections 2 and 9, and
      `platform` in the bodies of sections 4 and 9. */
  lemma FieldsInSectionBodies(t: PromptText, ctx: AnalysisContext, c: string)
    ensures var p := Render(t, ctx, c);
      && (exists i :: OccursAt(p, ctx.industry, i) && InSectionBody(t, ctx, c, 2, i, |ctx.industry|))
      && (exists i :: OccursAt(p, ctx.industry, i) && InSectionBody(t, ctx, c, 9, i, |ctx.industry|))
      && (exists i :: OccursAt(p, ctx.platform, i) && InSectionBody(t, ctx, c, 4, i, |ctx.platform|))
      && (exists i :: OccursAt(p, ctx.platform, i) && InSectionBody(t, ctx, c, 9, i, |ctx.platform|))
  {
    var s2, s4, s9 := SectionPieces(t, ctx, c, 2), SectionPieces(t, ctx, c, 4), SectionPieces(t, ctx, c, 9);
    assert s2[..1] == [t.heading2];
    ConcatSingle(t.heading2);
    PieceInBody(t, ctx, c, 2, 1, 2);
    assert s9[..1] == [t.heading9];
    ConcatSingle(t.heading9);
    PieceInBody(t, ctx, c, 9, 1, 2);
    PieceInBody(t, ctx, c, 9, 1, 4);
    assert s4[..3] == [t.heading4Open, ctx.platform, HeadingClose];
    Concat3(t.heading4Open, ctx.platform, HeadingClose);
    PieceInBody(t, ctx, c, 4, 3, 4);
  }

  /** The checklist lies in the body of section 4, after its heading and
      before the heading of section 5. */
  lemma ChecklistInSection4(t: PromptText, ctx: AnalysisContext, c: string)
    ensures exists i :: OccursAt(Render(t, ctx, c), c, i) && InSectionBody(t, ctx, c, 4, i, |c|)
  {
    var s4 := SectionPieces(t, ctx, c, 4);
    assert s4[..3] == [t.heading4Open, ctx.platform, HeadingClose];
    Concat3(t.heading4Open, ctx.platform, HeadingClose);
    PieceInBody(t, ctx, c, 4, 3, 6);
  }

  // ----- Fixed text of the checklist table and of the prompt template -----

  const SourceChecksText: ChecksText := ChecksText(
    InstagramChecks, FacebookChecks, TiktokChecks, LinkedinChecks, TwitterChecks,
    FallbackLine1, FallbackLine2, FallbackLine3)

  const FallbackLine1: string := "\n  - Standard ad specifications for "
  const FallbackLine2: string :=
    "\n" +
    "  - Platform-specific best practices\n" +
    "  - Audience behavior patterns on "
  const FallbackLine3: string := "\n  - Technical requirements and limitations"

  const HeadingClose: string := ")"

  const InstagramChecks: string :=
    "\n" +
    "  - Square (1:1) or vertical (4:5) aspect ratio optimization\n" +
    "  - Text overlay doesn't exceed 20% of image (old rule, but still good practice)\n" +
    "  - Bright, vibrant colors (performs better in feed)\n" +
    "  - Face close-ups increase engagement by 38%\n" +
    "  - Video vs static consideration (Reels prioritization)\n" +
    "  - Story-safe zones (top/bottom cutoff areas)\n" +
    "  - Swipeable carousel optimization\n" +
    "  - Product tags placement"

  const FacebookChecks: string :=
    "\n" +
    "  - Recommended image size: 1200x628px\n" +
    "  - Text-to-image ratio (avoid text-heavy designs)\n" +
    "  - Mobile feed optimization (90% of users on mobile)\n" +
    "  - Thumbnail effectiveness for video ads\n" +
    "  - Instant Experience (Canvas) compatibility\n" +
    "  - Multi-product catalog ad format\n" +
    "  - Lead form integration readiness\n" +
    "  - Community/group relevance"

  const TiktokChecks: string :=
    "\n" +
    "  - Vertical 9:16 aspect ratio (MUST for TikTok)\n" +
    "  - First 3 seconds hook strength\n" +
    "  - Sound-off viewing consideration (captions needed)\n" +
    "  - Native, organic look (overly polished ads perform worse)\n" +
    "  - Trend alignment (sounds, effects, transitions)\n" +
    "  - Creator-style authenticity\n" +
    "  - Fast-paced editing (attention span: 8 seconds)\n" +
    "  - Hashtag challenge potential"

  const LinkedinChecks: string :=
    "\n" +
    "  - Professional, polished aesthetic\n" +
    "  - B2B value proposition clarity\n" +
    "  - Credibility indicators (stats, logos, certifications)\n" +
    "  - Desktop vs mobile optimization (more desktop usage than other platforms)\n" +
    "  - Thought leadership positioning\n" +
    "  - Corporate color schemes\n" +
    "  - Executive imagery appropriateness\n" +
    "  - Lead gen form compatibility\n" +
    "  - Document ad format consideration"

  const TwitterChecks: string :=
    "\n" +
    "  - Landscape 16:9 or square 1:1 formats\n" +
    "  - High contrast for fast scrolling\n" +
    "  - Text brevity (complements tweet copy)\n" +
    "  - Trending topic relevance\n" +
    "  - Quote tweet screenshot consideration\n" +
    "  - Conversation starter potential\n" +
    "  - Poll integration opportunity\n" +
    "  - Real-time/timely content alignment"

  // The prompt's chunks. The persona sentence, the opening line, the ten
  // headings, the bodies of sections 1 and 10, the chunks of section 4
  // before the checklist, the chunks of section 9 and the closing
  // instruction are the source's text. The other body chunks keep the
  // topic lines and leave out the indented sub-items under them and the
  // sample lines of section 8. The lemmas above hold for any text.

  const Persona: string :=
    "You are a senior creative director analyzing advertising performance."

  const Opening: string :=
    "\n" +
    "\n" +
    "**ANALYZE THIS AD CREATIVE:**\n" +
    "\n"

  const Section1Header: string :=
    "## 1. FIRST IMPRESSION (3-Second Rule)"

  const Section1Body: string :=
    "\n" +
    "- ⏱️ **Scroll-Stop Power**: Will this stop someone mid-scroll? (1-10)\n" +
    "- 👁️ **Visual Hierarchy**: What catches the eye first, second, third?\n" +
    "- 🎯 **Message Clarity**: Can you understand the offer in 3 seconds?\n" +
    "\n"

  const Section2Header: string :=
    "## 2. DESIGN FUNDAMENTALS"

  const Section2BodyA: string :=
    "\n" +
    "- 🎨 **Color Psychology**:\n" +
    "  - Does it match "

  const Section2BodyB: string :=
    " conventions or break them strategically?\n" +
    "\n" +
    "- ✍️ **Typography**:\n" +
    "\n" +
    "- 📐 **Layout & Composition**:\n" +
    "\n" +
    "- 🖼️ **Imagery**:\n" +
    "\n"

  const Section3Header: string :=
    "## 3. MARKETING EFFECTIVENESS"

  const Section3Body: string :=
    "\n" +
    "\n" +
    "- 💬 **Copy Impact**:\n" +
    "\n" +
    "- 🎯 **Call-to-Action**:\n" +
    "\n" +
    "- 🧠 **Psychological Triggers**:\n" +
    "\n"

  const Section4HeaderOpen: string :=
    "## 4. PLATFORM OPTIMIZATION ("

  const Section4BodyA: string :=
    "\n" +
    "\n" +
    "- 📱 **"

  const Section4BodyB: string :=
    " Best Practices**:\n" +
    "  "

  const Section4BodyC: string :=
    "\n" +
    "\n" +
    "- 🔧 **Technical Specs**:\n" +
    "\n"

  const Section5HeaderOpen: string :=
    "## 5. AUDIENCE RESONANCE ("

  const Section5Body: string :=
    "\n" +
    "\n" +
    "- 👥 **Target Audience Alignment**:\n" +
    "\n" +
    "- 🌍 **Diversity & Inclusion**:\n" +
    "\n"

  const Section6Header: string :=
    "## 6. COMPETITIVE POSITIONING"

  const Section6Body: string :=
    "\n" +
    "\n" +
    "- 🏆 **Differentiation**:\n" +
    "\n" +
    "- 📊 **Current Trends** (2025):\n" +
    "\n"

  const Section7HeaderOpen: string :=
    "## 7. CONVERSION POTENTIAL (Goal: "

  const Section7Body: string :=
    "\n" +
    "\n" +
    "- 💰 **Estimated Performance Metrics**:\n" +
    "\n" +
    "- ⚠️ **Red Flags**:\n" +
    "\n"

  const Section8Header: string :=
    "## 8. ACTIONABLE RECOMMENDATIONS"

  const Section8Body: string :=
    "\n" +
    "\n" +
    "Provide 3 tiers of improvements:\n" +
    "\n" +
    "**🚀 Quick Wins** (can implement in <1 hour):\n" +
    "\n" +
    "**💡 Medium Impact** (1-3 hours of work):\n" +
    "\n" +
    "**🎯 Major Overhaul** (if needed):\n" +
    "\n"

  const Section9Header: string :=
    "## 9. COMPETITIVE COMPARISON"

  const Section9BodyA: string :=
    "\n" +
    "\n" +
    "How does this compare to typical "

  const Section9BodyB: string :=
    " ads on "

  const Section9BodyC: string :=
    "?\n" +
    "- Better/Worse/Average\n" +
    "- What are competitors doing differently?\n" +
    "- Gaps in the market this could fill\n" +
    "\n"

  const Section10Header: string :=
    "## 10. FINAL VERDICT"

  const Section10Body: string :=
    "\n" +
    "\n" +
    "- **Overall Score**: X/10\n" +
    "- **Would I approve this ad?**: Yes/No and why\n" +
    "- **Predicted Performance**: Top 10% / Top 25% / Average / Below Average\n" +
    "- **One-Sentence Summary**: [Your summary here]\n" +
    "\n"

  const Closing: string :=
    "Format your response with clear headings, use emojis for scannability, and be brutally honest but constructive."
}
