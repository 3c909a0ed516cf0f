/** The free-text search shared by the list pages: a field matches the
    search box when it is a string that contains the term, usually after
    both are lower-cased. */
module TextSearch {
  import opened JsValues

  /** `field?.toLowerCase().includes(term.toLowerCase())`.  A missing field
      (`undefined` or `null`) does not match.  A present field that is not a
      string makes the source throw; the model treats it as no match. */
  function LowerIncludes(field: Value, term: string): (m: bool)
    ensures m ==> field.Str? && |term| <= |field.s|
  {
    if field.Str? && Contains(ToLower(field.s), ToLower(term)) then
      ContainsNoLonger(ToLower(field.s), ToLower(term));
      true
    else false
  }

  /** `field?.includes(term)`, case-sensitive: a substring search on a
      string, membership on an array.  Any other present value makes the
      source throw; the model treats it as no match. */
  function PlainIncludes(field: Value, term: string): (m: bool)
    ensures m ==> field.Str? || field.List?
    ensures field.Str? ==> (m <==> Contains(field.s, term)) && (m ==> |term| <= |field.s|)
    ensures field.List? ==> (m <==> Str(term) in field.items)
  {
    if field.Str? && Contains(field.s, term) then
      ContainsNoLonger(field.s, term);
      true
    else Includes(field, term) == Some(true)
  }

  /** The empty search term matches every string field; the lower-cased
      search matches nothing else, the plain one also an array holding "". */
  lemma EmptyTermMatchesStrings(field: Value)
    ensures LowerIncludes(field, "") <==> field.Str?
    ensures PlainIncludes(field, "") <==> field.Str? || (field.List? && Str("") in field.items)
  {
    if field.Str? {
      ContainsEmpty(ToLower(field.s));
      ContainsEmpty(field.s);
    }
  }

  /** The lower-cased search ignores the case of the term: typing it in
      capitals finds the same fields. */
  lemma LowerIncludesIgnoresCase(field: Value, term: string)
    ensures LowerIncludes(field, ToUpper(term)) <==> LowerIncludes(field, term)
    ensures LowerIncludes(field, ToLower(term)) <==> LowerIncludes(field, term)
  {
    assert ToLower(ToUpper(term)) == ToLower(term);
    assert ToLower(ToLower(term)) == ToLower(term);
  }

  /** A field that holds the term verbatim matches. */
  lemma VerbatimMatches(s: string, term: string)
    requires Contains(s, term)
    ensures PlainIncludes(Str(s), term)
    ensures LowerIncludes(Str(s), term)
  {
    ContainsIffOccurs(s, term);
    var i :| OccursAt(s, term, i);
    assert ToLower(s)[i..i + |term|] == ToLower(term);
    assert OccursAt(ToLower(s), ToLower(term), i);
    ContainsIffOccurs(ToLower(s), ToLower(term));
  }
}
