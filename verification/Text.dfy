/** Trimming of strings, for any notion of white space. */
module Text {

  type Space = char -> bool

  function StripLeft(s: string, space: Space): string {
    if s == "" || !space(s[0]) then s else StripLeft(s[1..], space)
  }

  function StripRight(s: string, space: Space): string {
    if s == "" || !space(s[|s| - 1]) then s else StripRight(s[..|s| - 1], space)
  }

  function Strip(s: string, space: Space): string {
    StripRight(StripLeft(s, space), space)
  }

  ghost predicate EndsWith(s: string, t: string) {
    |t| <= |s| && s[|s| - |t|..] == t
  }

  /** Trimming only shortens. */
  lemma {:induction false} StripRightLength(s: string, space: Space)
    ensures |StripRight(s, space)| <= |s|
  {
    if s != "" && space(s[|s| - 1]) {
      StripRightLength(s[..|s| - 1], space);
    }
  }

  lemma {:induction false} StripLeftMeans(s: string, space: Space) returns (lead: string)
    ensures s == lead + StripLeft(s, space) && forall c :: c in lead ==> space(c)
    ensures StripLeft(s, space) != "" ==> !space(StripLeft(s, space)[0])
  {
    if s == "" || !space(s[0]) {
      lead := "";
    } else {
      lead := StripLeftMeans(s[1..], space);
      lead := [s[0]] + lead;
    }
  }

  lemma {:induction false} StripRightMeans(s: string, space: Space) returns (trail: string)
    ensures s == StripRight(s, space) + trail && forall c :: c in trail ==> space(c)
    ensures StripRight(s, space) != "" ==> !space(StripRight(s, space)[|StripRight(s, space)| - 1])
  {
    if s == "" || !space(s[|s| - 1]) {
      trail := "";
    } else {
      trail := StripRightMeans(s[..|s| - 1], space);
      trail := trail + [s[|s| - 1]];
    }
  }

  /** Only white space goes, at the two ends, and none is left there. */
  lemma StripMeans(s: string, space: Space) returns (lead: string, trail: string)
    ensures var text := Strip(s, space);
            && s == lead + text + trail && (forall c :: c in lead || c in trail ==> space(c))
            && (text != "" ==> !space(text[0]) && !space(text[|text| - 1]))
  {
    lead := StripLeftMeans(s, space);
    trail := StripRightMeans(StripLeft(s, space), space);
  }
}
