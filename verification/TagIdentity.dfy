/** The persistent tag identity of shared/tagNormalization.ts. Lower-casing and the forbidden
    character class are parameters; lower-casing is taken character by character. */
module TagIdentity {
  datatype Rules = Rules(lower: char -> char, forbidden: char -> bool)

  datatype Canon = Canonical(display: string, identity: string) | Invalid

  const MAX_PERSISTENT_TAG_LENGTH := 100

  /** The white space String.prototype.trim removes. */
  predicate IsSpace(c: char) {
    || '\t' <= c <= '\r' || c == ' ' || c == '\U{A0}' || c == '\U{1680}' || '\U{2000}' <= c <= '\U{200A}'
    || c == '\U{2028}' || c == '\U{2029}' || c == '\U{202F}' || c == '\U{205F}' || c == '\U{3000}' || c == '\U{FEFF}'
  }

  function TrimLeft(s: string): (t: string)
    ensures t == "" || !IsSpace(t[0])
    ensures s == "" || IsSpace(s[0]) || t == s
    ensures |t| <= |s| && t == s[|s| - |t|..]
  {
    if s != "" && IsSpace(s[0]) then TrimLeft(s[1..]) else s
  }

  function TrimRight(s: string): (t: string)
    ensures t == "" || !IsSpace(t[|t| - 1])
    ensures s == "" || IsSpace(s[|s| - 1]) || t == s
    ensures |t| <= |s| && t == s[..|t|]
  {
    if s != "" && IsSpace(s[|s| - 1]) then TrimRight(s[..|s| - 1]) else s
  }

  function Trim(s: string): string {
    TrimRight(TrimLeft(s))
  }

  lemma TrimEnds(s: string)
    ensures var t := Trim(s);
            && |t| <= |s| && (forall c :: c in t ==> c in s)
            && (t == "" || (!IsSpace(t[0]) && !IsSpace(t[|t| - 1])))
            && Trim(t) == t
  {
    var left := TrimLeft(s);
    var t := TrimRight(left);
    assert forall c :: c in left ==> c in s;
    assert forall c :: c in t ==> c in left;
    if t != "" {
      assert t[0] == left[0];
      assert TrimLeft(t) == t;
    }
  }

  /** normalizeTagDisplay: trim, remove exactly one leading #, trim. */
  function Display(raw: string): string {
    var trimmed := Trim(raw);
    Trim(if trimmed != "" && trimmed[0] == '#' then trimmed[1..] else trimmed)
  }

  function Lower(rules: Rules, s: string): (t: string)
    ensures |t| == |s|
  {
    seq(|s|, i requires 0 <= i < |s| => rules.lower(s[i]))
  }

  /** validatePersistentTag. */
  function Canonicalize(rules: Rules, raw: string): Canon {
    if |raw| > MAX_PERSISTENT_TAG_LENGTH || (exists c :: c in raw && rules.forbidden(c)) then Invalid
    else
      var display := Display(raw);
      var identity := Lower(rules, display);
      if display == "" || |display| > MAX_PERSISTENT_TAG_LENGTH || |identity| > MAX_PERSISTENT_TAG_LENGTH then Invalid
      else Canonical(display, identity)
  }

  lemma DisplayEnds(raw: string)
    ensures var d := Display(raw); |d| <= |raw| && Trim(d) == d && forall c :: c in d ==> c in raw
  {
    hide Trim, IsSpace;
    TrimEnds(raw);
    var trimmed := Trim(raw);
    var rest := if trimmed != "" && trimmed[0] == '#' then trimmed[1..] else trimmed;
    TrimEnds(rest);
    assert forall c :: c in rest ==> c in trimmed;
  }

  /** Canonicalising a display name again changes nothing exactly when it has no leading # left:
      only one # is removed. */
  lemma StableDisplay(rules: Rules, raw: string)
    requires Canonicalize(rules, raw).Canonical?
    ensures var canon := Canonicalize(rules, raw);
            var again := Canonicalize(rules, canon.display);
            && (canon.display[0] != '#' ==> again == canon)
            && (canon.display[0] == '#' ==> again.Canonical? ==> again.identity != canon.identity)
  {
    hide Trim, IsSpace;
    DisplayEnds(raw);
    var d := Display(raw);
    if d[0] == '#' {
      TrimEnds(d[1..]);
    }
  }

  /** Of two leading # signs one stays. */
  lemma OneHashStays(x: string)
    requires x != "" && !IsSpace(x[|x| - 1])
    ensures Display("##" + x) == "#" + x
  {
    hide Trim;
    TrimmedAlready("##" + x);
    TrimmedAlready("#" + x);
    assert ("##" + x)[1..] == "#" + x;
  }

  lemma DoubleHashIsValid(rules: Rules, x: string)
    requires x != "" && !IsSpace(x[|x| - 1]) && |x| <= 98
    requires !rules.forbidden('#') && forall c :: c in x ==> !rules.forbidden(c)
    ensures Canonicalize(rules, "##" + x) == Canonical("#" + x, Lower(rules, "#" + x))
  {
    hide Display, Trim, IsSpace, Lower;
    OneHashStays(x);
    var raw := "##" + x;
    forall c | c in raw
      ensures !rules.forbidden(c)
    {
      var i :| 0 <= i < |raw| && raw[i] == c;
      assert i >= 2 ==> raw[i] == x[i - 2];
    }
  }

  lemma TrimmedAlready(s: string)
    requires s != "" && !IsSpace(s[0]) && !IsSpace(s[|s| - 1])
    ensures Trim(s) == s
  {
  }
}
