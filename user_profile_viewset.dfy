/**
 * The user-profile resource controller: how a URL segment is turned into
 * the ORM filter that finds a profile, which profiles are candidates at
 * all, the `month`/`year` guard of the monthly-submissions endpoint, the
 * password change and the non-overwriting metadata patch.
 */
module UserProfileViewset {
  import opened Wrappers
  import opened Text
  import opened ProfileMetadata

  // ---------------------------------------------------------------------
  // Lookup resolution in get_object

  datatype FilterValue = IntValue(n: int) | TextValue(s: string)

  /** One ORM keyword filter `name=value`, as in `filter_kwargs`. */
  datatype Filter = Filter(name: string, value: FilterValue)

  /** `ParseError('Expected URL keyword argument `<field>`.')`. */
  datatype LookupError = MissingLookupArgument(field: string)

  /**
   * The lookup part of `get_object`: `urlKwargs` are the keyword arguments
   * captured from the URL, `lookupField` the viewset's `lookup_field`, and
   * `relatedLookup` the `lookup_field` of the serializer field of that name
   * when that field is a hyperlinked relation (`None` otherwise). A lookup
   * that `int()` accepts selects by primary key; any other selects by a
   * case-insensitive match on the (possibly extended) lookup field.
   */
  function LookupFilter(urlKwargs: map<string, string>, lookupField: string, relatedLookup: Option<string>)
    : (r: Result<Filter, LookupError>)
    ensures lookupField !in urlKwargs <==> r == Err(MissingLookupArgument(lookupField))
    ensures r.Ok? && r.value.value.IntValue? ==>
      r.value.name == "user__pk" && ParseInt(urlKwargs[lookupField]) == Some(r.value.value.n)
    ensures r.Ok? && r.value.value.TextValue? ==>
      && ParseInt(urlKwargs[lookupField]).None?
      && r.value.value.s == urlKwargs[lookupField]
      && r.value.name == (if relatedLookup.Some? then lookupField + "__" + relatedLookup.value else lookupField) + "__iexact"
  {
    if lookupField !in urlKwargs then Err(MissingLookupArgument(lookupField))
    else
      var field := if relatedLookup.Some? then lookupField + "__" + relatedLookup.value else lookupField;
      var lookup := urlKwargs[lookupField];
      match ParseInt(lookup)
      case Some(userPk) => Ok(Filter("user__pk", IntValue(userPk)))
      case None => Ok(Filter(field + "__iexact", TextValue(lookup)))
  }

  /** A number printed in decimal is looked up by primary key, whatever the lookup field is. */
  lemma NumericLookupSelectsByPk(urlKwargs: map<string, string>, lookupField: string, relatedLookup: Option<string>, pk: int)
    requires lookupField in urlKwargs && urlKwargs[lookupField] == IntToString(pk)
    ensures LookupFilter(urlKwargs, lookupField, relatedLookup) == Ok(Filter("user__pk", IntValue(pk)))
  {
    IntToStringRoundTrip(pk);
  }

  /**
   * Any lookup `int()` accepts selects by primary key: surrounding
   * whitespace, a sign and whitespace after the sign included (`"+ 7"`).
   */
  lemma NumeralLookupSelectsByPk(urlKwargs: map<string, string>, lookupField: string, relatedLookup: Option<string>,
                                 pre: string, sign: string, mid: string, digits: string, post: string)
    requires forall i :: 0 <= i < |pre| ==> IsSpace(pre[i])
    requires forall i :: 0 <= i < |mid| ==> IsSpace(mid[i])
    requires forall i :: 0 <= i < |post| ==> IsSpace(post[i])
    requires sign == "" || sign == "+" || sign == "-"
    requires IsAllDigits(digits)
    requires lookupField in urlKwargs && urlKwargs[lookupField] == pre + sign + mid + digits + post
    ensures LookupFilter(urlKwargs, lookupField, relatedLookup)
         == Ok(Filter("user__pk", IntValue(if sign == "-" then -(DigitsValue(digits) as int) else DigitsValue(digits))))
  {
    ParseIntAccepts(pre, sign, mid, digits, post);
  }

  /** A lookup holding any character other than digits, a sign or whitespace is matched as a name. */
  lemma NamedLookupSelectsByName(urlKwargs: map<string, string>, lookupField: string, relatedLookup: Option<string>, i: nat)
    requires lookupField in urlKwargs && i < |urlKwargs[lookupField]| && !IsNumeral(urlKwargs[lookupField][i])
    ensures var r := LookupFilter(urlKwargs, lookupField, relatedLookup);
      r.Ok? && r.value.value == TextValue(urlKwargs[lookupField])
  {
  }

  /** A profile row as the queryset sees it: its user's primary key, user name and activity flag. */
  datatype ProfileRow = ProfileRow(userPk: int, username: string, isActive: bool)

  /** The viewset's base queryset: active users only, and never the anonymous account, whatever its case. */
  function Queryset(rows: seq<ProfileRow>, anonymousUsername: string): (r: seq<ProfileRow>)
    ensures forall p :: p in r <==> p in rows && p.isActive && !IEquals(p.username, anonymousUsername)
    ensures |r| <= |rows|
  {
    if rows == [] then []
    else
      var rest := Queryset(rows[1..], anonymousUsername);
      assert forall p :: p in rows <==> p == rows[0] || p in rows[1..];
      if rows[0].isActive && !IEquals(rows[0].username, anonymousUsername) then [rows[0]] + rest else rest
  }

  // ---------------------------------------------------------------------
  // monthly_submissions: the month/year guard

  datatype Period = Period(month: int, year: int)

  const InvalidMonth := "Invalid month provided as parameter"
  const InvalidYear := "Invalid year provided as parameter"

  predicate ValidMonth(m: string) { IsAllDigits(m) && 1 <= DigitsValue(m) <= 12 }

  predicate ValidYear(y: string) { IsAllDigits(y) && |y| == 4 }

  /**
   * The period `monthly_submissions` counts: a given `month` must be all
   * digits with a value from 1 to 12 and a given `year` exactly four digits,
   * the month being checked first; an absent or empty parameter falls back
   * to the current month or year. (`int()` of an all-digit string is its
   * decimal value, so the guard's `int(month)` is `DigitsValue`.)
   */
  function MonthlyPeriod(monthParam: Option<string>, yearParam: Option<string>, now: Period)
    : (r: Result<Period, string>)
    ensures r.Ok? <==> (!Given(monthParam) || ValidMonth(monthParam.value)) && (!Given(yearParam) || ValidYear(yearParam.value))
    ensures r.Err? ==> r.error == (if Given(monthParam) && !ValidMonth(monthParam.value) then InvalidMonth else InvalidYear)
    ensures r.Ok? && Given(monthParam) ==> 1 <= r.value.month <= 12 && r.value.month == DigitsValue(monthParam.value)
    ensures r.Ok? && !Given(monthParam) ==> r.value.month == now.month
    ensures r.Ok? && Given(yearParam) ==> 0 <= r.value.year <= 9999 && r.value.year == DigitsValue(yearParam.value)
    ensures r.Ok? && !Given(yearParam) ==> r.value.year == now.year
  {
    if Given(monthParam) && !ValidMonth(monthParam.value) then Err(InvalidMonth)
    else if Given(yearParam) && !ValidYear(yearParam.value) then Err(InvalidYear)
    else
      var month := if Given(monthParam) then DigitsValue(monthParam.value) else now.month;
      var year := if Given(yearParam) then FourDigitsBound(yearParam.value); DigitsValue(yearParam.value) else now.year;
      Ok(Period(month, year))
  }

  lemma {:induction false} DigitsValueBound(s: string)
    requires forall i :: 0 <= i < |s| ==> IsDigit(s[i])
    ensures DigitsValue(s) < Pow10(|s|)
  {
    if s != [] { DigitsValueBound(s[..|s| - 1]); }
  }

  function Pow10(n: nat): nat { if n == 0 then 1 else 10 * Pow10(n - 1) }

  lemma FourDigitsBound(y: string)
    requires ValidYear(y)
    ensures DigitsValue(y) <= 9999
  {
    DigitsValueBound(y);
  }

  // ---------------------------------------------------------------------
  // change_password

  const HttpNoContent := 204
  const HttpBadRequest := 400

  /** The account behind a profile; password hashing is abstracted to storing the password itself. */
  class User {
    var password: string

    constructor (password: string)
      ensures this.password == password
    {
      this.password := password;
    }

    /** `user.check_password(raw)`: false for a missing password. */
    predicate CheckPassword(raw: Option<string>)
      reads this
    {
      raw == Some(password)
    }
  }

  /**
   * `change_password`: the password changes, with a 204 answer, exactly when
   * a non-empty `new_password` is given and `current_password` checks;
   * otherwise the answer is 400 and the password is unchanged.
   */
  method ChangePassword(user: User, currentPassword: Option<string>, newPassword: Option<string>) returns (status: int)
    modifies user
    ensures var accepted := Given(newPassword) && old(user.CheckPassword(currentPassword));
      && (accepted ==> status == HttpNoContent && user.password == newPassword.value)
      && (!accepted ==> status == HttpBadRequest && user.password == old(user.password))
  {
    if Given(newPassword) {
      if user.CheckPassword(currentPassword) {
        user.password := newPassword.value;
        return HttpNoContent;
      }
    }
    return HttpBadRequest;
  }

  // ---------------------------------------------------------------------
  // partial_update with overwrite == 'false'

  class UserProfile {
    var metadata: Json

    constructor (metadata: Json)
      ensures this.metadata == metadata
    {
      this.metadata := metadata;
    }
  }

  datatype PatchOutcome =
    | Patched(data: Json)  // 200, with the saved metadata
    | Delegated            // `overwrite` is not 'false': the framework's partial update runs
    | Crashed              // `.items()` was called on a value that is not a dictionary

  /** `profile.metadata or {}`. */
  function StartingMetadata(metadata: Json): (r: Json)
    ensures r == metadata || r == JObject([])
    ensures r.JObject? <==> metadata.JObject? || !Truthy(metadata)
  {
    if Truthy(metadata) then metadata else JObject([])
  }

  /**
   * `partial_update`: with `overwrite == 'false'` each incoming pair, in
   * order, is replaced wherever `check_if_key_exists` finds its key in the
   * metadata so far, and otherwise set at top level; the result is saved on
   * the profile and returned. `incoming` is the request's `metadata` value
   * after JSON decoding.
   */
  method PartialUpdate(profile: UserProfile, overwrite: Option<string>, incoming: Option<Json>) returns (outcome: PatchOutcome)
    modifies profile
    ensures overwrite != Some("false") ==> outcome == Delegated && profile.metadata == old(profile.metadata)
    ensures overwrite == Some("false") && !(incoming.Some? && incoming.value.JObject?) ==>
      outcome == Crashed && profile.metadata == old(profile.metadata)
    ensures overwrite == Some("false") && incoming.Some? && incoming.value.JObject? ==>
      var start := StartingMetadata(old(profile.metadata));
      var items := incoming.value.fields;
      if items != [] && !start.JObject? then
        outcome == Crashed && profile.metadata == old(profile.metadata)
      else
        && outcome == Patched(profile.metadata)
        && profile.metadata == (if items == [] then start else JObject(Merged(start.fields, items)))
  {
    if overwrite != Some("false") {
      return Delegated;
    }
    if !(incoming.Some? && incoming.value.JObject?) {
      return Crashed;
    }
    var metadata := StartingMetadata(profile.metadata);
    var items := incoming.value.fields;
    if items == [] {
      profile.metadata := metadata;
      return Patched(metadata);
    }
    if !metadata.JObject? {
      return Crashed;
    }
    var fields := metadata.fields;
    for i := 0 to |items|
      invariant fields == Merged(metadata.fields, items[..i])
    {
      var Field(key, value) := items[i];
      assert items[..i + 1][..i] == items[..i];
      if KeyExists(key, fields) {
        fields := ReplaceKeyValue(key, value, fields);
      } else {
        fields := Set(fields, key, value);
      }
    }
    assert items[..|items|] == items;
    profile.metadata := JObject(fields);
    return Patched(profile.metadata);
  }
}
