/**
 * The restaurant schema: the normalised name, trimmed address and contact, the contact-number
 * validator `^\+?[0-9\s\-]+$`, the rating bounds and the defaults.
 */
module RestaurantModel {
  import opened Common
  import opened Text

  /** A restaurant document; `menu` is the ordered list of its food-item references. */
  datatype Restaurant = Restaurant(
    restaurantName: string,
    restaurantAddress: string,
    contact: string,
    rating: real,
    menu: seq<Id>,
    coverImage: string,
    createdAt: int)

  /** The default `rating` of a new restaurant. */
  const DefaultRating: real := 0.0

  /** The default `coverImage` of a new restaurant. */
  const DefaultCoverImage: string := ""

  /** The `trim` then `lowercase` setters of `restaurantName`. */
  function NormalizeName(s: string): string {
    ToLower(Trim(s))
  }

  lemma NormalizeNameIdempotent(s: string)
    ensures NormalizeName(NormalizeName(s)) == NormalizeName(s)
    ensures NormalizeName(s) == "" <==> Trim(s) == ""
  {
    LowerCommutesWithTrim(Trim(s));
    TrimIdempotent(s);
    ToLowerIdempotent(Trim(s));
  }

  /** A name is stored as it is exactly when it is trimmed and has no capital letter; every normalised name is. */
  lemma NormalizedIff(s: string)
    ensures IsTrimmed(NormalizeName(s)) && IsLower(NormalizeName(s))
    ensures NormalizeName(s) == s <==> IsTrimmed(s) && IsLower(s)
  {
    LowerKeepsTrimmed(Trim(s));
    LowerFixedIff(Trim(s));
    TrimFixedIff(s);
    LowerFixedIff(s);
    if NormalizeName(s) == s {
      assert IsTrimmed(s) && IsLower(s);
    }
  }

  /** The character class `[0-9\s\-]`. */
  predicate IsContactChar(c: char) {
    ('0' <= c <= '9') || IsWhitespace(c) || c == '-'
  }

  /** Every character of `s` is in the contact class and there is at least one. */
  predicate IsContactBody(s: string) {
    s != [] && forall i :: 0 <= i < |s| ==> IsContactChar(s[i])
  }

  /** The validator read declaratively: an optional leading '+' followed by a non-empty contact body. */
  predicate IsValidContact(s: string) {
    IsContactBody(s) || (s != [] && s[0] == '+' && IsContactBody(s[1..]))
  }

  /**
   * The validator as a scanner: state 0 before anything, 1 after the optional '+',
   * 2 after at least one class character; -1 is the dead state.
   */
  function ContactStep(state: int, c: char): int {
    if state == 0 && c == '+' then 1
    else if 0 <= state <= 2 && IsContactChar(c) then 2
    else -1
  }

  function ContactRun(state: int, s: string): int
    decreases s
  {
    if s == [] then state else ContactRun(ContactStep(state, s[0]), s[1..])
  }

  predicate ContactScannerAccepts(s: string) {
    ContactRun(0, s) == 2
  }

  lemma {:induction false} DeadStateStays(s: string)
    ensures ContactRun(-1, s) == -1
  {
    if s != [] {
      DeadStateStays(s[1..]);
    }
  }

  /** From states 1 and 2 the scanner ends accepting exactly on contact characters (at least one for state 1). */
  lemma {:induction false} BodyRun(state: int, s: string)
    requires state == 1 || state == 2
    decreases s
    ensures ContactRun(state, s) == 2 <==> (forall i :: 0 <= i < |s| ==> IsContactChar(s[i])) && (state == 2 || s != [])
  {
    if s != [] {
      if IsContactChar(s[0]) {
        BodyRun(2, s[1..]);
        assert forall i :: 1 <= i < |s| ==> s[1..][i - 1] == s[i];
      } else {
        DeadStateStays(s[1..]);
      }
    }
  }

  /** The scanner and the declarative reading of `^\+?[0-9\s\-]+$` accept the same strings. */
  lemma ContactScannerAgrees(s: string)
    ensures ContactScannerAccepts(s) <==> IsValidContact(s)
  {
    if s != [] {
      if s[0] == '+' {
        BodyRun(1, s[1..]);
        assert !IsContactBody(s);
      } else if IsContactChar(s[0]) {
        BodyRun(2, s[1..]);
        assert forall i :: 1 <= i < |s| ==> s[1..][i - 1] == s[i];
      } else {
        DeadStateStays(s[1..]);
      }
    }
  }

  /**
   * What the validator refuses: the empty string, a lone '+', any string holding a letter, and any
   * '+' that is not the first character.
   */
  lemma ContactRejections(s: string, i: int)
    requires 0 <= i < |s|
    ensures !IsValidContact("") && !IsValidContact("+")
    ensures ('a' <= s[i] <= 'z' || 'A' <= s[i] <= 'Z') ==> !IsValidContact(s)
    ensures (i > 0 && s[i] == '+') ==> !IsValidContact(s)
  {
    assert "+"[0] == '+' && !IsContactChar('+') && "+"[1..] == [];
    if IsValidContact(s) && i > 0 {
      assert s[1..][i - 1] == s[i];
    }
  }

  /**
   * What validation accepts: a normalised non-empty name, a trimmed non-empty address, a trimmed
   * contact the validator accepts, and a rating in [0, 5].
   */
  predicate SchemaValid(r: Restaurant) {
    && IsTrimmedNonEmpty(r.restaurantName) && IsLower(r.restaurantName)
    && IsTrimmedNonEmpty(r.restaurantAddress)
    && IsTrimmed(r.contact) && IsValidContact(r.contact)
    && 0.0 <= r.rating <= 5.0
  }

  /** The document built from request values, each string path passing through its setters. */
  function Cast(name: string, address: string, contact: string, rating: real, menu: seq<Id>,
                coverImage: string, createdAt: int): Restaurant
  {
    Restaurant(NormalizeName(name), Trim(address), Trim(contact), rating, menu, coverImage, createdAt)
  }

  /** A cast document is valid exactly when name and address are not blank, the trimmed contact passes the validator and the rating is in range. */
  lemma CastValidIff(name: string, address: string, contact: string, rating: real, menu: seq<Id>,
                     coverImage: string, createdAt: int)
    ensures SchemaValid(Cast(name, address, contact, rating, menu, coverImage, createdAt))
        <==> Trim(name) != "" && Trim(address) != "" && IsValidContact(Trim(contact)) && 0.0 <= rating <= 5.0
  {
    NormalizeNameIdempotent(name);
    NormalizedIff(name);
  }
}
