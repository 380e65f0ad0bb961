/** `PokemonValidator.validateAndNormalizeName`: the check every name or id
    passes before the backend asks PokeAPI for it. */
module PokemonValidator {
  import opened Common
  import opened Exceptions
  import opened Text

  const NullMessage := "Pokemon name or id must not be null"
  const EmptyMessage := "Pokemon name or id must not be empty"
  const InvalidMessage := "Invalid pokemon identifier. Use a valid name or numeric id"

  /** `String.trim` strips every character whose code is at most U+0020. */
  predicate IsTrimmable(c: char) { c <= ' ' }

  function TrimStart(s: string): (t: string)
    ensures |t| <= |s| && t == s[|s| - |t|..]
    ensures forall i :: 0 <= i < |s| - |t| ==> IsTrimmable(s[i])
    ensures t != [] ==> !IsTrimmable(t[0])
  {
    if s != [] && IsTrimmable(s[0]) then TrimStart(s[1..]) else s
  }

  function TrimEnd(s: string): (t: string)
    ensures |t| <= |s| && t == s[..|t|]
    ensures forall i :: |t| <= i < |s| ==> IsTrimmable(s[i])
    ensures t != [] ==> !IsTrimmable(t[|t| - 1])
  {
    if s != [] && IsTrimmable(s[|s| - 1]) then TrimEnd(s[..|s| - 1]) else s
  }

  /** `String.trim`: `s` without its leading and trailing characters up to U+0020. */
  function Trim(s: string): (t: string)
    ensures t != [] ==> !IsTrimmable(t[0]) && !IsTrimmable(t[|t| - 1])
    ensures var i := |s| - |TrimStart(s)|;
            i + |t| <= |s| && t == s[i..i + |t|]
            && (forall k :: 0 <= k < i ==> IsTrimmable(s[k]))
            && (forall k :: i + |t| <= k < |s| ==> IsTrimmable(s[k]))
  {
    TrimEnd(TrimStart(s))
  }

  /** Text matched by `^[0-9]+$`. */
  predicate IsNumericId(s: string) { s != [] && AllDigits(s) }

  predicate IsNameChar(c: char) { 'a' <= c <= 'z' || c == '-' }

  /** Text matched by `^[a-z-]+$`. */
  predicate IsName(s: string) { s != [] && forall i :: 0 <= i < |s| ==> IsNameChar(s[i]) }

  /** `validateAndNormalizeName`; `None` stands for a `null` argument. */
  function ValidateAndNormalizeName(input: Option<string>): (r: Result<string, Exception>)
    ensures input.None? ==> r == Err(BadRequest(NullMessage))
    ensures input.Some? && Trim(input.value) == [] ==> r == Err(BadRequest(EmptyMessage))
    ensures input.Some? && Trim(input.value) != [] && r.Err? ==> r == Err(BadRequest(InvalidMessage))
    ensures r.Ok? ==> (input.Some? &&
      ((IsNumericId(r.value) && r.value == Trim(input.value)) ||
       (IsName(r.value) && r.value == AsciiLower(Trim(input.value)))))
  {
    if input.None? then Err(BadRequest(NullMessage))
    else
      var trimmed := Trim(input.value);
      if trimmed == [] then Err(BadRequest(EmptyMessage))
      else if IsNumericId(trimmed) then Ok(trimmed)
      else
        var normalized := AsciiLower(trimmed);
        if IsName(normalized) then Ok(normalized)
        else Err(BadRequest(InvalidMessage))
  }

  /** A trimmed input of digits only is returned as trimmed, leading zeros included. */
  lemma NumericIdKept(s: string)
    requires IsNumericId(Trim(s))
    ensures ValidateAndNormalizeName(Some(s)) == Ok(Trim(s))
  {
  }

  predicate IsAsciiLetterOrHyphen(c: char) { 'a' <= c <= 'z' || 'A' <= c <= 'Z' || c == '-' }

  /** Lower-casing yields a name exactly when the text consists of ASCII
      letters of either case and hyphens. */
  lemma {:induction false} LoweredIsName(t: string)
    ensures IsName(AsciiLower(t)) <==>
            t != [] && forall i :: 0 <= i < |t| ==> IsAsciiLetterOrHyphen(t[i])
  {
    var lowered := AsciiLower(t);
    assert forall i :: 0 <= i < |t| ==> (IsNameChar(lowered[i]) <==> IsAsciiLetterOrHyphen(t[i]));
  }

  /** An input is accepted exactly when, once trimmed, it is all digits or all
      ASCII letters and hyphens; everything else (digits mixed with letters,
      inner spaces, other symbols) is rejected. */
  lemma AcceptedExactly(s: string)
    ensures ValidateAndNormalizeName(Some(s)).Ok? <==>
            var t := Trim(s);
            IsNumericId(t) || (t != [] && forall i :: 0 <= i < |t| ==> IsAsciiLetterOrHyphen(t[i]))
  {
    LoweredIsName(Trim(s));
  }

  lemma TrimKeepsTrimmed(s: string)
    requires s == [] || (!IsTrimmable(s[0]) && !IsTrimmable(s[|s| - 1]))
    ensures Trim(s) == s
  {
  }

  /** A successful result is non-empty, has nothing to trim, and validating it
      again returns it unchanged. */
  lemma {:induction false} ValidateIdempotent(input: Option<string>)
    requires ValidateAndNormalizeName(input).Ok?
    ensures var v := ValidateAndNormalizeName(input).value;
            v != [] && Trim(v) == v && ValidateAndNormalizeName(Some(v)) == Ok(v)
  {
    var v := ValidateAndNormalizeName(input).value;
    if IsNumericId(v) {
      TrimKeepsTrimmed(v);
    } else {
      assert IsName(v);
      TrimKeepsTrimmed(v);
      assert !IsDigit(v[0]);
      NameIsLowerCase(v);
    }
  }

  lemma NameIsLowerCase(v: string)
    requires IsName(v)
    ensures AsciiLower(v) == v
  {
    assert forall i :: 0 <= i < |v| ==> AsciiLower(v)[i] == v[i];
  }

  lemma ExampleLeadingZeros()
    ensures ValidateAndNormalizeName(Some(" 025\t")) == Ok("025")
  {
    assert " 025\t"[1..] == "025\t" && "025\t"[..3] == "025";
    assert TrimStart(" 025\t") == "025\t";
    assert TrimEnd("025\t") == "025";
  }

  lemma ExampleBlank()
    ensures ValidateAndNormalizeName(Some("   ")) == Err(BadRequest(EmptyMessage))
  {
    assert Trim("   ") == "";
  }
}
