/** Request payloads of the tag endpoints and their field constraints
    (backend/app/schemas/tag.py), including the colour pattern
    `^#[0-9A-Fa-f]{6}$`. */
module TagSchemas {
  import opened Base
  import opened Validation

  /** TagCreate (= TagBase). */
  datatype TagCreate = TagCreate(
    name: string,
    category: Option<string>,
    description: Option<string>,
    color: Option<string>)

  /** TagUpdate: every field optional; None stands both for an omitted
      field and for an explicit null, which the update treats alike. */
  datatype TagUpdate = TagUpdate(
    name: Option<string>,
    category: Option<string>,
    description: Option<string>,
    color: Option<string>)

  predicate IsHexDigit(c: char) {
    ('0' <= c <= '9') || ('A' <= c <= 'F') || ('a' <= c <= 'f')
  }

  /** `[0-9A-Fa-f]{n}$`: s is exactly n hex digits. */
  predicate HexRun(s: string, n: nat)
    decreases n
  {
    if n == 0 then s == [] else |s| > 0 && IsHexDigit(s[0]) && HexRun(s[1..], n - 1)
  }

  /** The colour regular expression `^#[0-9A-Fa-f]{6}$`, matched from the
      start of the string. */
  predicate MatchesColorPattern(s: string) {
    |s| > 0 && s[0] == '#' && HexRun(s[1..], 6)
  }

  lemma {:induction false} HexRunShape(s: string, n: nat)
    ensures HexRun(s, n) <==> |s| == n && forall i :: 0 <= i < |s| ==> IsHexDigit(s[i])
    decreases n
  {
    if n > 0 && |s| > 0 {
      HexRunShape(s[1..], n - 1);
      assert forall i :: 1 <= i < |s| ==> s[i] == s[1..][i - 1];
    }
  }

  /** A colour matches the pattern iff it is '#' followed by exactly six
      hex digits; so every match has length 7 and the `max_length=7` bound
      never rejects a colour the pattern accepts. */
  lemma ColorPatternShape(s: string)
    ensures MatchesColorPattern(s) <==>
              |s| == 7 && s[0] == '#' && forall i :: 1 <= i < 7 ==> IsHexDigit(s[i])
  {
    if |s| > 0 {
      HexRunShape(s[1..], 6);
      assert forall i :: 1 <= i < |s| ==> s[i] == s[1..][i - 1];
    }
  }

  /** A present colour: at most 7 characters and matching the pattern. */
  predicate ValidColor(c: string) {
    |c| <= 7 && MatchesColorPattern(c)
  }

  function ColorCheck(field: string, c: Option<string>): seq<Violation> {
    if c.None? then []
    else if |c.value| > 7 then [Violation(field, MaxLength(7))]
    else if !MatchesColorPattern(c.value) then [Violation(field, Pattern)]
    else []
  }

  /** TagBase: name at most 100 characters (the empty name is accepted),
      category at most 100, description at most 500, colour as above. */
  predicate ValidTagFields(name: Option<string>, category: Option<string>, description: Option<string>, color: Option<string>) {
    (name.Some? ==> |name.value| <= 100) &&
    (category.Some? ==> |category.value| <= 100) &&
    (description.Some? ==> |description.value| <= 500) &&
    (color.Some? ==> ValidColor(color.value))
  }

  predicate ValidTagCreate(t: TagCreate) {
    ValidTagFields(Some(t.name), t.category, t.description, t.color)
  }

  /** TagUpdate's present fields obey the same bounds as creation. */
  predicate ValidTagUpdate(t: TagUpdate) {
    ValidTagFields(t.name, t.category, t.description, t.color)
  }

  function TagFieldViolations(name: Option<string>, category: Option<string>, description: Option<string>, color: Option<string>): (r: seq<Violation>)
    ensures r == [] <==> ValidTagFields(name, category, description, color)
  {
    OptionalLengthCheck("name", name, 100) +
    OptionalLengthCheck("category", category, 100) +
    OptionalLengthCheck("description", description, 500) +
    ColorCheck("color", color)
  }

  function TagCreateViolations(t: TagCreate): (r: seq<Violation>)
    ensures r == [] <==> ValidTagCreate(t)
  {
    TagFieldViolations(Some(t.name), t.category, t.description, t.color)
  }

  function TagUpdateViolations(t: TagUpdate): (r: seq<Violation>)
    ensures r == [] <==> ValidTagUpdate(t)
  {
    TagFieldViolations(t.name, t.category, t.description, t.color)
  }

  /** A present colour is valid exactly when it matches the pattern: the
      length bound adds nothing. */
  lemma ColorLengthBoundImplied(c: string)
    ensures ValidColor(c) <==> MatchesColorPattern(c)
  {
    ColorPatternShape(c);
  }

  /** Names are bounded above only: the empty name passes validation. */
  lemma EmptyNameAccepted()
    ensures TagCreateViolations(TagCreate("", None, None, None)) == []
  {
  }
}
