/** Schema validators of the Logic Apps integration account: the name
    pattern `^[\w-().]{1,80}$` and the resource ID validator. */
module LogicValidate {
  import opened Wrappers

  // ----- IntegrationAccountName -----

  /** `\w` in Go's regular expression syntax: ASCII letters, digits and `_` only. */
  predicate IsWordChar(c: char) {
    ('0' <= c <= '9') || ('A' <= c <= 'Z') || ('a' <= c <= 'z') || c == '_'
  }

  /** The class `[\w-().]`. Go compiles patterns with Perl syntax, where a `-`
      right after a class escape such as `\w` is a literal, not a range. */
  predicate InNameClass(c: char) {
    IsWordChar(c) || c == '-' || c == '(' || c == ')' || c == '.'
  }

  const NameMinLength: nat := 1
  const NameMaxLength: nat := 80

  /** Whether all of s matches the counted repetition `[\w-().]{lo,hi}`, taking
      one character per step. Anchoring with `^` and `$` means nothing may be left
      over; in Go `$` outside multi-line mode matches only at the end of the text,
      so a trailing newline is not skipped. */
  function MatchRepeat(s: string, lo: nat, hi: nat): bool {
    if |s| == 0 then lo == 0
    else hi > 0 && InNameClass(s[0]) && MatchRepeat(s[1..], if lo > 0 then lo - 1 else 0, hi - 1)
  }

  /** IntegrationAccountName's pattern `^[\w-().]{1,80}$`. */
  predicate IsIntegrationAccountName(s: string) {
    MatchRepeat(s, NameMinLength, NameMaxLength)
  }

  /** The repetition matches exactly the strings of allowed length made only of
      characters of the class. */
  lemma {:induction false} MatchRepeatIff(s: string, lo: nat, hi: nat)
    ensures MatchRepeat(s, lo, hi) <==> lo <= |s| <= hi && forall i :: 0 <= i < |s| ==> InNameClass(s[i])
  {
    if |s| > 0 && hi > 0 {
      MatchRepeatIff(s[1..], if lo > 0 then lo - 1 else 0, hi - 1);
      assert forall i :: 1 <= i < |s| ==> s[i] == s[1..][i - 1];
    }
  }

  /** A name is accepted exactly when it has 1 to 80 characters, each an ASCII
      letter or digit or one of `_`, `-`, `(`, `)`, `.`. */
  lemma IntegrationAccountNameIff(s: string)
    ensures IsIntegrationAccountName(s) <==>
      1 <= |s| <= 80 &&
      forall i :: 0 <= i < |s| ==>
        ('0' <= s[i] <= '9') || ('A' <= s[i] <= 'Z') || ('a' <= s[i] <= 'z') ||
        s[i] in {'_', '-', '(', ')', '.'}
  {
    MatchRepeatIff(s, NameMinLength, NameMaxLength);
  }

  lemma EmptyNameRejected()
    ensures !IsIntegrationAccountName("")
  {
  }

  /** Any character outside ASCII, a letter such as 'é' included, is rejected. */
  lemma NonAsciiNameRejected(s: string, i: nat)
    requires i < |s| && s[i] as int >= 0x80
    ensures !IsIntegrationAccountName(s)
  {
    MatchRepeatIff(s, NameMinLength, NameMaxLength);
  }

  /** Names longer than 80 characters are rejected whatever they contain. */
  lemma LongNameRejected(s: string)
    requires |s| > NameMaxLength
    ensures !IsIntegrationAccountName(s)
  {
    MatchRepeatIff(s, NameMinLength, NameMaxLength);
  }

  /** A trailing newline is not allowed before `$`. */
  lemma TrailingNewlineRejected(s: string)
    ensures !IsIntegrationAccountName(s + "\n")
  {
    MatchRepeatIff(s + "\n", NameMinLength, NameMaxLength);
    assert (s + "\n")[|s|] == '\n';
  }

  lemma SampleNameAccepted()
    ensures IsIntegrationAccountName("ia_1-(b).c")
  {
  }

  // ----- IntegrationAccountID -----

  /** The value a schema validator receives (Go's interface{}): a string or anything else. */
  datatype ConfigValue = StringValue(s: string) | NonStringValue

  datatype ValidationError =
    | ExpectedString(key: string)
    | UnparsableIntegrationAccountId(key: string, cause: string)

  /** The (warnings, errors) pair a schema validator returns. */
  datatype Diagnostics = Diagnostics(warnings: seq<string>, errors: seq<ValidationError>)

  /** IntegrationAccountID for the attribute named `key`. `parseId` stands for
      parse.IntegrationAccountID: Fail(reason) when the string is not an
      integration account resource ID. */
  function IntegrationAccountId(i: ConfigValue, key: string, parseId: string -> Outcome<string>): (d: Diagnostics)
    ensures d.warnings == []
    ensures |d.errors| <= 1
    ensures i.NonStringValue? ==> d.errors == [ExpectedString(key)]
    ensures i.StringValue? ==> (d.errors == [] <==> parseId(i.s).Pass?)
    ensures i.StringValue? && parseId(i.s).Fail? ==>
      d.errors == [UnparsableIntegrationAccountId(key, parseId(i.s).error)]
  {
    match i
    case NonStringValue => Diagnostics([], [ExpectedString(key)])
    case StringValue(v) =>
      match parseId(v)
      case Fail(reason) => Diagnostics([], [UnparsableIntegrationAccountId(key, reason)])
      case Pass => Diagnostics([], [])
  }
}
