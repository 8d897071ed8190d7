/**
 * The contact card served by `GET /p/:id/vcard`: a vCard 3.0 (RFC 2426)
 * text built as a fixed list of eight candidate lines, with the blank
 * placeholders of absent optional fields filtered out and the rest joined
 * with CRLF.
 */
module VCard {
  import opened JsValues
  import opened Profiles

  const Begin: string := "BEGIN:VCARD"
  const Version: string := "VERSION:3.0"
  const End: string := "END:VCARD"
  const NamePrefix: string := "FN:"
  const TelPrefix: string := "TEL;TYPE=CELL:"
  const EmailPrefix: string := "EMAIL:"
  const UrlPrefix: string := "URL:"

  /** The array literal of the handler: optional lines are '' when their field is falsy. */
  function CandidateLines(p: Profile): seq<string> {
    [ Begin,
      Version,
      NamePrefix + p.fullname,
      if Truthy(p.phone) then TelPrefix + p.phone.value else "",
      EmailPrefix + p.email,
      if p.linkedin != "" then UrlPrefix + p.linkedin else "",
      if p.instagram != "" then UrlPrefix + p.instagram else "",
      End ]
  }

  /** The card's lines: the candidates with the empty ones dropped. */
  function Lines(p: Profile): seq<string> {
    FilterNonEmpty(CandidateLines(p))
  }

  /** The response body: the lines joined with CRLF. */
  function Text(p: Profile): string {
    Join(Lines(p), Crlf)
  }

  /** An optional property line: present only for a non-empty value. */
  function Optional(prefix: string, value: string): seq<string> {
    if value == "" then [] else [prefix + value]
  }

  /** 1 when the optional line of `value` is present, 0 otherwise. */
  function Present(value: string): nat {
    if value == "" then 0 else 1
  }

  /**
   * The card described field by field: the fixed lines, then each optional
   * line only when its value is non-empty, in the order TEL, EMAIL, the
   * LinkedIn URL, the Instagram URL.
   */
  function Layout(p: Profile): seq<string> {
    [Begin, Version, NamePrefix + p.fullname]
    + Optional(TelPrefix, OrEmpty(p.phone))
    + [EmailPrefix + p.email]
    + Optional(UrlPrefix, p.linkedin)
    + Optional(UrlPrefix, p.instagram)
    + [End]
  }

  /** What filtering keeps of a single line. */
  function Kept(x: string): seq<string> {
    if x == "" then [] else [x]
  }

  /** Filtering a list grown by one element filters that element on its own. */
  lemma FilterSnoc(xs: seq<string>, x: string)
    ensures FilterNonEmpty(xs + [x]) == FilterNonEmpty(xs) + Kept(x)
  {
    FilterNonEmptyAppend(xs, [x]);
    assert [x][1..] == [];
  }

  /** A placeholder line that is '' for an empty value is kept exactly when the optional line is present. */
  lemma KeptPlaceholder(prefix: string, value: string)
    requires prefix != ""
    ensures Kept(if value != "" then prefix + value else "") == Optional(prefix, value)
  {
  }

  /**
   * Filtering a list of fixed non-empty lines followed by five single lines
   * keeps the fixed lines and filters each of the five on its own.
   */
  lemma FilterFixedThenFive(head: seq<string>, a: string, b: string, c: string, d: string, e: string)
    requires forall i :: 0 <= i < |head| ==> head[i] != ""
    ensures FilterNonEmpty(head + [a] + [b] + [c] + [d] + [e])
         == head + Kept(a) + Kept(b) + Kept(c) + Kept(d) + Kept(e)
  {
    FilterNonEmptyKeepsAll(head);
    FilterSnoc(head, a);
    FilterSnoc(head + [a], b);
    FilterSnoc(head + [a] + [b], c);
    FilterSnoc(head + [a] + [b] + [c], d);
    FilterSnoc(head + [a] + [b] + [c] + [d], e);
  }

  /** Filtering the candidate list omits exactly the absent optional fields, leaving no blank line. */
  lemma LinesMatchLayout(p: Profile)
    ensures Lines(p) == Layout(p)
  {
    var c := CandidateLines(p);
    var head := [Begin, Version, NamePrefix + p.fullname];
    assert c == head + [c[3]] + [c[4]] + [c[5]] + [c[6]] + [c[7]];
    FilterFixedThenFive(head, c[3], c[4], c[5], c[6], c[7]);
    OrEmptyKeepsSubmitted(p.phone);
    assert c[3] == if OrEmpty(p.phone) != "" then TelPrefix + OrEmpty(p.phone) else "";
    KeptPlaceholder(TelPrefix, OrEmpty(p.phone));
    KeptPlaceholder(UrlPrefix, p.linkedin);
    KeptPlaceholder(UrlPrefix, p.instagram);
  }

  /** Five lines always, plus one per non-empty field among phone, LinkedIn and Instagram. */
  lemma LineCount(p: Profile)
    ensures |Lines(p)| == 5 + Present(OrEmpty(p.phone)) + Present(p.linkedin) + Present(p.instagram)
  {
    LinesMatchLayout(p);
  }

  /**
   * Position of every line: the header and name first, TEL (if any) right
   * before EMAIL, the LinkedIn URL before the Instagram URL, END last, and
   * no line empty.
   */
  lemma LineOrder(p: Profile)
    ensures var lines := Lines(p);
      var e := 3 + Present(OrEmpty(p.phone));
      var i := e + 1 + Present(p.linkedin);
      && |lines| == i + Present(p.instagram) + 1
      && lines[0] == Begin && lines[1] == Version && lines[2] == NamePrefix + p.fullname
      && (Truthy(p.phone) ==> lines[3] == TelPrefix + p.phone.value)
      && lines[e] == EmailPrefix + p.email
      && (p.linkedin != "" ==> lines[e + 1] == UrlPrefix + p.linkedin)
      && (p.instagram != "" ==> lines[i] == UrlPrefix + p.instagram)
      && lines[|lines| - 1] == End
      && (forall k :: 0 <= k < |lines| ==> lines[k] != "")
  {
    LinesMatchLayout(p);
    OrEmptyKeepsSubmitted(p.phone);
  }

  /** With phone, LinkedIn and Instagram all empty, the card is exactly the five mandatory lines. */
  lemma MinimalCard(p: Profile)
    requires !Truthy(p.phone) && p.linkedin == "" && p.instagram == ""
    ensures Lines(p) == [Begin, Version, NamePrefix + p.fullname, EmailPrefix + p.email, End]
  {
    LinesMatchLayout(p);
    OrEmptyKeepsSubmitted(p.phone);
  }

  /** Text ending with `END:VCARD` does not end with a CRLF. */
  lemma EndLineNotCrlf(t: string)
    requires EndsWith(t, Crlf + End)
    ensures !EndsWith(t, Crlf)
  {
    var suffix := t[|t| - |Crlf + End|..];
    assert suffix == Crlf + End;
    assert t[|t| - 1] == suffix[|suffix| - 1] == 'D';
  }

  /** The text opens with the BEGIN line and closes with END:VCARD, with no CRLF after it. */
  lemma TextFraming(p: Profile)
    ensures StartsWith(Text(p), Begin + Crlf)
    ensures EndsWith(Text(p), Crlf + End)
    ensures !EndsWith(Text(p), Crlf)
  {
    LineOrder(p);
    JoinStartsWith(Lines(p), Crlf);
    JoinEndsWith(Lines(p), Crlf);
    EndLineNotCrlf(Text(p));
  }

  /** No field of the profile holds a carriage return. */
  predicate NoCarriageReturn(p: Profile) {
    '\r' !in p.fullname && '\r' !in p.email && '\r' !in OrEmpty(p.phone)
    && '\r' !in p.linkedin && '\r' !in p.instagram
  }

  /** A line built from a prefix without a carriage return and a value without one has none either. */
  lemma NoCarriageReturnIn(prefix: string, value: string)
    requires '\r' !in prefix && '\r' !in value
    ensures '\r' !in prefix + value
  {
  }

  /** Every line of the card is free of carriage returns when every field is. */
  lemma LinesWithoutCarriageReturn(p: Profile)
    requires NoCarriageReturn(p)
    ensures forall i :: 0 <= i < |Lines(p)| ==> '\r' !in Lines(p)[i]
  {
    LinesMatchLayout(p);
    NoCarriageReturnIn(NamePrefix, p.fullname);
    NoCarriageReturnIn(TelPrefix, OrEmpty(p.phone));
    NoCarriageReturnIn(EmailPrefix, p.email);
    NoCarriageReturnIn(UrlPrefix, p.linkedin);
    NoCarriageReturnIn(UrlPrefix, p.instagram);
  }

  /**
   * A reader that splits the text at CRLF recovers the card's lines exactly,
   * provided no field carries a carriage return of its own.
   */
  lemma TextSplitsIntoLines(p: Profile)
    requires NoCarriageReturn(p)
    ensures SplitCrlf(Text(p)) == Lines(p)
  {
    LinesWithoutCarriageReturn(p);
    LineCount(p);
    SplitJoinCrlf(Lines(p));
  }
}
