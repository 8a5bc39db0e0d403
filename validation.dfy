/** The checks the submit handler runs on the two form fields before anything is
    stored: both fields are trimmed, an empty field is refused, then a project URL
    without the secure scheme is refused. The first failing check decides. */
module Validation {
  import opened Text

  /** The only scheme the project URL may have. */
  const SecureScheme: string := "https://"

  /** What the checks decide about one submission. */
  datatype Verdict =
    | MissingFields                        // a field is empty once trimmed
    | BadScheme                            // the trimmed URL lacks the secure scheme
    | Accepted(url: string, key: string)   // the trimmed values to store

  /** The submit handler's checks on the raw field values. */
  function Validate(rawUrl: string, rawKey: string): (v: Verdict)
    ensures v.MissingFields? <==> AllWhitespace(rawUrl) || AllWhitespace(rawKey)
    ensures v.BadScheme? <==>
      !AllWhitespace(rawUrl) && !AllWhitespace(rawKey) && !StartsWith(Trim(rawUrl), SecureScheme)
    ensures v.Accepted? ==> v.url == Trim(rawUrl) && v.key == Trim(rawKey)
    ensures v.Accepted? ==> StartsWith(v.url, SecureScheme) && v.key != []
  {
    TrimEmptyIffBlank(rawUrl);
    TrimEmptyIffBlank(rawKey);
    var url := Trim(rawUrl);
    var key := Trim(rawKey);
    if url == [] || key == [] then MissingFields
    else if !StartsWith(url, SecureScheme) then BadScheme
    else Accepted(url, key)
  }

  /** The first failure wins: a blank field is reported as missing even when the
      URL also lacks the secure scheme, whatever the other field holds. */
  lemma MissingFieldsBeforeScheme(rawUrl: string, rawKey: string)
    requires AllWhitespace(rawUrl) || AllWhitespace(rawKey)
    ensures Validate(rawUrl, rawKey) == MissingFields
  {
  }

  /** Accepted values are already in final form: submitting them again is accepted
      with exactly the same values. */
  lemma AcceptedIsStable(rawUrl: string, rawKey: string)
    ensures var v := Validate(rawUrl, rawKey);
            v.Accepted? ==> Validate(v.url, v.key) == v
  {
    TrimIdempotent(rawUrl);
    TrimIdempotent(rawKey);
  }

  /** Whitespace typed before the URL does not change the verdict. */
  lemma LeadingWhitespaceIgnored(c: char, rawUrl: string, rawKey: string)
    requires IsWhitespace(c)
    ensures Validate([c] + rawUrl, rawKey) == Validate(rawUrl, rawKey)
  {
    TrimSkipsLeadingWhitespace(c, rawUrl);
  }

  /** A non-blank URL whose text starts with another scheme is refused for its
      scheme; `http://` is the case the check exists for. */
  lemma PlainHttpRefused(rest: string, rawKey: string)
    requires !AllWhitespace(rawKey)
    ensures Validate("http://" + rest, rawKey) == BadScheme
  {
    var u := "http://" + rest;
    var t := Trim(u);
    assert u[0] == 'h' && u[4] == ':';
    assert TrimStart(u) == u;
    // u[4] is not whitespace, so trimming keeps it, and it differs from the 's' of https.
    assert |t| > 4 && t[4] == ':';
    assert !StartsWith(t, SecureScheme) by {
      if |t| >= |SecureScheme| {
        assert t[..|SecureScheme|][4] == ':';
      }
    }
  }
}
