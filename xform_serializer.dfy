/**
 * The form serializers' computed fields: the manifest entry's file name,
 * download format, group-delimiter suffix and hash; the form-list hash and
 * version; the first-match metadata lookup; the per-user grouping of a
 * form's permission rows; and the read-through cache in front of the
 * Enketo URLs, the metadata list and the submission versions.
 *
 * The cache is a key-to-value map whose keys are a prefix followed by the
 * form's primary key in decimal; the prefixes themselves, URL reversal,
 * role computation, the Enketo services and the ORM queries are inputs.
 */
module XFormSerializer {
  import opened Wrappers
  import opened Text
  import opened Sorting
  import opened ProfileMetadata

  // ---------------------------------------------------------------------
  // XFormManifestSerializer and XFormListSerializer fields

  /**
   * `get_filename`: a data value split on single spaces into more than two
   * parts names the file after its third part, with `.csv` appended;
   * otherwise the data value is the file name.
   */
  function ManifestFilename(dataValue: string): (r: string)
    ensures CountChar(dataValue, ' ') < 2 ==> r == dataValue
    ensures CountChar(dataValue, ' ') >= 2 ==>
      && |Split(dataValue, ' ')| > 2
      && r == Split(dataValue, ' ')[2] + ".csv"
      && forall i :: 0 <= i < |r| - 4 ==> r[i] != ' '
  {
    var parts := Split(dataValue, ' ');
    SplitCount(dataValue, ' ');
    if |parts| > 2 then
      SplitPartsHaveNoSeparator(dataValue, ' ');
      assert parts[2] in parts;
      parts[2] + ".csv"
    else dataValue
  }

  /** With at least two spaces, the third part is the text between the second and the third space (or the end). */
  lemma ManifestFilenameIsThirdPart(dataValue: string)
    requires CountChar(dataValue, ' ') >= 2
    ensures var parts := Split(dataValue, ' ');
      && |parts| > 2
      && dataValue == parts[0] + " " + parts[1] + " " + Join(parts[2..], ' ')
      && ManifestFilename(dataValue) == parts[2] + ".csv"
  {
    var parts := Split(dataValue, ' ');
    SplitCount(dataValue, ' ');
    JoinSplit(dataValue, ' ');
    assert Join(parts, ' ') == parts[0] + [' '] + Join(parts[1..], ' ');
    assert parts[1..][1..] == parts[2..];
    assert Join(parts[1..], ' ') == parts[1] + [' '] + Join(parts[2..], ' ');
  }

  /**
   * The download format of `get_url`: the text after the last `.` of the
   * data value, or `csv` when it has none (the `ValueError` of `rindex`).
   */
  function ManifestFormat(dataValue: string): (fmt: string)
    ensures (forall j :: 0 <= j < |dataValue| ==> dataValue[j] != '.') ==> fmt == "csv"
    ensures (exists j :: 0 <= j < |dataValue| && dataValue[j] == '.') ==>
      && |fmt| < |dataValue|
      && dataValue == dataValue[..|dataValue| - |fmt| - 1] + "." + fmt
      && forall j :: 0 <= j < |fmt| ==> fmt[j] != '.'
  {
    match LastIndexOf(dataValue, '.')
    case None => "csv"
    case Some(i) =>
      var fmt := dataValue[i + 1..];
      assert forall j :: 0 <= j < |fmt| ==> fmt[j] == dataValue[i + 1 + j];
      assert dataValue == dataValue[..i] + "." + fmt;
      fmt
  }

  /**
   * `get_url` of a manifest entry: the URL reversed for the lower-cased
   * format, followed by `?<tag>=<delimiter>` exactly when a delimiter is
   * given and the format, before lower-casing, is `csv`. `reverse` stands
   * for the framework's URL reversal of the media route, given the format.
   */
  function ManifestUrl(dataValue: string, groupDelimiter: Option<string>, tag: string, reverse: string -> string): (url: string)
    ensures var fmt := ManifestFormat(dataValue);
      && (Given(groupDelimiter) && fmt == "csv" ==> url == reverse(Lower(fmt)) + "?" + tag + "=" + groupDelimiter.value)
      && (!(Given(groupDelimiter) && fmt == "csv") ==> url == reverse(Lower(fmt)))
  {
    var fmt := ManifestFormat(dataValue);
    var url := reverse(Lower(fmt));
    if Given(groupDelimiter) && fmt == "csv" then url + "?" + tag + "=" + groupDelimiter.value else url
  }

  /** A data value without a dot is served as CSV and carries a given delimiter. */
  lemma UndottedValueCarriesDelimiter(dataValue: string, groupDelimiter: Option<string>, tag: string, reverse: string -> string)
    requires forall j :: 0 <= j < |dataValue| ==> dataValue[j] != '.'
    requires Given(groupDelimiter)
    ensures ManifestUrl(dataValue, groupDelimiter, tag, reverse) == reverse("csv") + "?" + tag + "=" + groupDelimiter.value
  {
    assert Lower("csv") == "csv";
  }

  /**
   * The comparison with `csv` is case-sensitive: a file ending in `.CSV`
   * is downloaded in the `csv` format but never carries the delimiter.
   */
  lemma UpperCaseCsvDropsDelimiter(stem: string, groupDelimiter: Option<string>, tag: string, reverse: string -> string)
    ensures ManifestUrl(stem + ".CSV", groupDelimiter, tag, reverse) == reverse("csv")
  {
    var v := stem + ".CSV";
    assert v[|stem|] == '.' && v[|stem| + 1..] == "CSV";
    LastIndexOfIs(v, '.', |stem|);
    assert Lower("CSV") == "csv";
  }

  /** `XFormManifestSerializer.get_hash`: the file hash when it is non-empty, otherwise `md5:`. */
  function ManifestHash(fileHash: Option<string>): (r: string)
    ensures Given(fileHash) ==> r == fileHash.value
    ensures !Given(fileHash) ==> r == "md5:"
    ensures r != ""
  {
    if Given(fileHash) then fileHash.value else "md5:"
  }

  /** `XFormListSerializer.get_hash`: `md5:` before the form's hash, which Python prints as `None` when it is missing. */
  function ListHash(hash: Option<string>): (r: string)
    ensures |r| >= 4 && r[..4] == "md5:"
    ensures hash.Some? ==> r[4..] == hash.value
    ensures hash.None? ==> r[4..] == "None"
  {
    "md5:" + (if hash.Some? then hash.value else "None")
  }

  /** `XFormListSerializer.get_version`: forms in the list never report a major/minor version. */
  function ListVersion(): (r: Option<string>)
    ensures r.None?
  {
    None
  }

  // ---------------------------------------------------------------------
  // XFormMixin._get_metadata

  /** A metadata row of a form: its `data_type` and `data_value`. */
  datatype MetaRow = MetaRow(dataType: string, dataValue: string)

  /** The data value of the first row of type `key`; `None` when there is no such row. */
  function FirstValue(rows: seq<MetaRow>, key: string): (r: Option<string>)
    ensures r.None? <==> forall i :: 0 <= i < |rows| ==> rows[i].dataType != key
    ensures r.Some? ==> exists i :: (0 <= i < |rows| && rows[i].dataType == key && rows[i].dataValue == r.value
      && forall j :: 0 <= j < i ==> rows[j].dataType != key)
  {
    if rows == [] then None
    else if rows[0].dataType == key then Some(rows[0].dataValue)
    else
      var r := FirstValue(rows[1..], key);
      assert forall i :: 1 <= i < |rows| ==> rows[i] == rows[1..][i - 1];
      if r.Some? then
        var i :| 0 <= i < |rows[1..]| && rows[1..][i].dataType == key && rows[1..][i].dataValue == r.value
          && forall j :: 0 <= j < i ==> rows[1..][j].dataType != key;
        assert rows[i + 1].dataType == key && rows[i + 1].dataValue == r.value;
        r
      else r
  }

  datatype MetadataAnswer = Value(value: Option<string>) | AllRows(rows: seq<MetaRow>)

  /** `_get_metadata`: a truthy key asks for one value by first match, a falsy key for every row. */
  function MetadataOf(rows: seq<MetaRow>, key: Option<string>): (r: MetadataAnswer)
    ensures Given(key) ==> r.Value? && r.value == FirstValue(rows, key.value)
    ensures !Given(key) ==> r == AllRows(rows)
  {
    if Given(key) then Value(FirstValue(rows, key.value)) else AllRows(rows)
  }

  /** A later row of the same type never shadows an earlier one. */
  lemma {:induction false} FirstValueOfConcat(front: seq<MetaRow>, back: seq<MetaRow>, key: string)
    ensures FirstValue(front + back, key) == if FirstValue(front, key).Some? then FirstValue(front, key) else FirstValue(back, key)
  {
    if front == [] {
      assert front + back == back;
    } else {
      assert (front + back)[0] == front[0];
      assert (front + back)[1..] == front[1..] + back;
      FirstValueOfConcat(front[1..], back, key);
    }
  }

  // ---------------------------------------------------------------------
  // XFormMixin.get_users

  /** What a permission row tells about its user. `isOrg` is `is_organization(user.profile)`. */
  datatype UserInfo = UserInfo(isOrg: bool, metadata: Json, firstName: string, lastName: string, username: string)

  /** One object-permission row of a form: the user it grants, that user's details and the permission's codename. */
  datatype PermRow = PermRow(userId: int, user: UserInfo, codename: string)

  /** An entry of `get_users`: the user's details and role, without the permission list it was computed from. */
  datatype UserEntry = UserEntry(isOrg: bool, metadata: Json, firstName: string, lastName: string, user: string, role: string)

  /** The per-user record while rows are being grouped: the details and the codenames collected so far. */
  datatype Draft = Draft(info: UserInfo, permissions: seq<string>)

  /** The distinct users of the rows, in order of first appearance. */
  function UserIds(perms: seq<PermRow>): seq<int> {
    if perms == [] then []
    else
      var ids := UserIds(perms[..|perms| - 1]);
      if perms[|perms| - 1].userId in ids then ids else ids + [perms[|perms| - 1].userId]
  }

  /** The codenames granted to `user`, in row order, repeats kept. */
  function Codenames(perms: seq<PermRow>, user: int): seq<string> {
    if perms == [] then []
    else Codenames(perms[..|perms| - 1], user) + (if perms[|perms| - 1].userId == user then [perms[|perms| - 1].codename] else [])
  }

  /** The details of `user` as its first row gives them. */
  function FirstInfo(perms: seq<PermRow>, user: int): UserInfo
    requires user in UserIds(perms)
  {
    var front := perms[..|perms| - 1];
    if user in UserIds(front) then FirstInfo(front, user) else perms[|perms| - 1].user
  }

  /** The details kept for a user are those of the first row granting it something. */
  lemma {:induction false} FirstInfoIsFirstRow(perms: seq<PermRow>, user: int)
    requires user in UserIds(perms)
    ensures exists j :: 0 <= j < |perms| && perms[j].userId == user && perms[j].user == FirstInfo(perms, user)
                        && forall i :: 0 <= i < j ==> perms[i].userId != user
  {
    var front := perms[..|perms| - 1];
    var last := |perms| - 1;
    UserIdsMembers(front, user);
    assert forall i :: 0 <= i < |front| ==> front[i] == perms[i];
    if user in UserIds(front) {
      FirstInfoIsFirstRow(front, user);
      var j :| 0 <= j < |front| && front[j].userId == user && front[j].user == FirstInfo(front, user)
                && forall i :: 0 <= i < j ==> front[i].userId != user;
      assert perms[j] == front[j];
    } else {
      UserIdsMembers(perms, user);
      var k :| 0 <= k < |perms| && perms[k].userId == user;
      assert k == last;
      assert perms[last].user == FirstInfo(perms, user);
    }
  }

  function DraftOf(perms: seq<PermRow>, user: int): Draft
    requires user in UserIds(perms)
  {
    Draft(FirstInfo(perms, user), Codenames(perms, user))
  }

  /** What the role is computed from: the user's codenames, sorted. */
  function RoleInput(perms: seq<PermRow>, user: int): seq<string> {
    Sort(Codenames(perms, user), StrLe)
  }

  /** A finished entry: the draft's details, and the role of its sorted codenames; the codenames themselves are dropped. */
  function Finish(draft: Draft, role: seq<string> -> string): UserEntry {
    UserEntry(draft.info.isOrg, draft.info.metadata, draft.info.firstName, draft.info.lastName,
              draft.info.username, role(Sort(draft.permissions, StrLe)))
  }

  /** The value `get_users` computes: one entry per distinct user, in order of first appearance. */
  function UsersOf(perms: seq<PermRow>, role: seq<string> -> string): (r: seq<UserEntry>)
    ensures |r| == |UserIds(perms)|
  {
    var ids := UserIds(perms);
    seq(|ids|, k requires 0 <= k < |ids| => Finish(DraftOf(perms, ids[k]), role))
  }

  lemma {:induction false} UserIdsMembers(perms: seq<PermRow>, user: int)
    ensures user in UserIds(perms) <==> exists k :: 0 <= k < |perms| && perms[k].userId == user
  {
    if perms != [] {
      var front := perms[..|perms| - 1];
      UserIdsMembers(front, user);
      assert forall k :: 0 <= k < |front| ==> front[k] == perms[k];
    }
  }

  lemma {:induction false} UserIdsDistinct(perms: seq<PermRow>)
    ensures forall i, j :: 0 <= i < j < |UserIds(perms)| ==> UserIds(perms)[i] != UserIds(perms)[j]
  {
    if perms != [] {
      UserIdsDistinct(perms[..|perms| - 1]);
    }
  }

  lemma {:induction false} CodenamesOfAbsentUser(perms: seq<PermRow>, user: int)
    requires user !in UserIds(perms)
    ensures Codenames(perms, user) == []
  {
    if perms != [] {
      var front := perms[..|perms| - 1];
      assert user !in UserIds(front);
      CodenamesOfAbsentUser(front, user);
    }
  }

  /** Grouping distributes over concatenation: a user's codenames are those of each part, in order. */
  lemma {:induction false} CodenamesOfConcat(a: seq<PermRow>, b: seq<PermRow>, user: int)
    ensures Codenames(a + b, user) == Codenames(a, user) + Codenames(b, user)
  {
    if b == [] {
      assert a + b == a;
    } else {
      var b' := b[..|b| - 1];
      assert (a + b)[..|a + b| - 1] == a + b';
      CodenamesOfConcat(a, b', user);
    }
  }

  /** Every codename of a user's rows, and nothing else, is in its list. */
  lemma {:induction false} CodenamesMembers(perms: seq<PermRow>, user: int, c: string)
    ensures c in Codenames(perms, user) <==> exists k :: 0 <= k < |perms| && perms[k].userId == user && perms[k].codename == c
  {
    if perms != [] {
      var front := perms[..|perms| - 1];
      CodenamesMembers(front, user, c);
      assert forall k :: 0 <= k < |front| ==> front[k] == perms[k];
    }
  }

  /** The role sees the user's codenames in ascending order, each as often as it was granted. */
  lemma RoleInputSortedPermutation(perms: seq<PermRow>, user: int)
    ensures SortedBy(RoleInput(perms, user), StrLe)
    ensures multiset(RoleInput(perms, user)) == multiset(Codenames(perms, user))
  {
    StrLeIsTotalPreorder();
    SortSorted(Codenames(perms, user), StrLe);
  }

  /** `get_users` yields one entry per distinct user of the rows, each user once. */
  lemma UsersOfOnePerUser(perms: seq<PermRow>, role: seq<string> -> string)
    ensures |UsersOf(perms, role)| == |UserIds(perms)|
    ensures forall u :: u in UserIds(perms) <==> exists k :: 0 <= k < |perms| && perms[k].userId == u
    ensures forall i, j :: 0 <= i < j < |UserIds(perms)| ==> UserIds(perms)[i] != UserIds(perms)[j]
    ensures forall k :: 0 <= k < |UserIds(perms)| ==>
      var info := FirstInfo(perms, UserIds(perms)[k]);
      UsersOf(perms, role)[k]
        == UserEntry(info.isOrg, info.metadata, info.firstName, info.lastName, info.username,
                     role(RoleInput(perms, UserIds(perms)[k])))
  {
    forall u ensures u in UserIds(perms) <==> exists k :: 0 <= k < |perms| && perms[k].userId == u {
      UserIdsMembers(perms, u);
    }
    UserIdsDistinct(perms);
  }

  /** The first loop: group the rows per user, keeping the first row's details and every codename. */
  method GroupPermissions(perms: seq<PermRow>) returns (order: seq<int>, data: map<int, Draft>)
    ensures order == UserIds(perms)
    ensures forall u :: u in data <==> u in order
    ensures forall u :: u in data ==> u in UserIds(perms) && data[u] == DraftOf(perms, u)
    ensures forall i :: 0 <= i < |order| ==> order[i] in data
  {
    order := [];
    data := map[];
    for i := 0 to |perms|
      invariant order == UserIds(perms[..i])
      invariant forall u :: u in data <==> u in order
      invariant forall u :: u in data ==> u in UserIds(perms[..i]) && data[u] == DraftOf(perms[..i], u)
    {
      var p := perms[i];
      ghost var seen := perms[..i];
      assert perms[..i + 1][..i] == seen;
      if p.userId !in data {
        CodenamesOfAbsentUser(seen, p.userId);
        data := data[p.userId := Draft(p.user, [])];
        order := order + [p.userId];
      }
      data := data[p.userId := data[p.userId].(permissions := data[p.userId].permissions + [p.codename])];
    }
    assert perms[..|perms|] == perms;
  }

  /** The second loop: sort each user's codenames, compute the role and drop the codenames. */
  method FinishEntries(order: seq<int>, data: map<int, Draft>, role: seq<string> -> string)
    returns (entries: seq<UserEntry>)
    requires forall i :: 0 <= i < |order| ==> order[i] in data
    ensures |entries| == |order|
    ensures forall k :: 0 <= k < |order| ==> entries[k] == Finish(data[order[k]], role)
  {
    entries := [];
    for i := 0 to |order|
      invariant |entries| == i
      invariant forall k :: 0 <= k < i ==> entries[k] == Finish(data[order[k]], role)
    {
      var draft := data[order[i]];
      var sorted := Sort(draft.permissions, StrLe);
      entries := entries + [UserEntry(draft.info.isOrg, draft.info.metadata, draft.info.firstName,
                                      draft.info.lastName, draft.info.username, role(sorted))];
    }
  }

  // ---------------------------------------------------------------------
  // The cache

  /** What the cache holds: nothing, a URL, or one of the cached lists. */
  datatype CacheValue =
    | Nothing
    | Text(text: string)
    | Users(users: seq<UserEntry>)
    | Rows(rows: seq<MetaRow>)
    | Versions(counts: seq<VersionCount>)

  /** The submissions of one form version: `{'version': ..., 'total': ...}`. */
  datatype VersionCount = VersionCount(version: string, total: nat)

  /** Python truthiness of a cached value: absent, empty strings and empty lists are falsy. */
  predicate CachedTruthy(v: CacheValue) {
    match v
    case Nothing => false
    case Text(s) => s != ""
    case Users(us) => us != []
    case Rows(rs) => rs != []
    case Versions(vs) => vs != []
  }

  /** The key of a form's entry: the prefix, then the primary key in decimal. */
  function Key(prefix: string, pk: int): (k: string)
    ensures |k| >= |prefix| && k[..|prefix|] == prefix
  {
    prefix + IntToString(pk)
  }

  /** What follows the prefix in a key reads back as the form's primary key. */
  lemma KeyReadsBack(prefix: string, pk: int)
    ensures var k := Key(prefix, pk); ParseInt(k[|prefix|..]) == Some(pk)
  {
    IntToStringRoundTrip(pk);
    var k := Key(prefix, pk);
    assert k[|prefix|..] == IntToString(pk);
  }

  /** Under one prefix, different forms never share a cache entry. */
  lemma KeysDistinct(prefix: string, pk1: int, pk2: int)
    requires pk1 != pk2
    ensures Key(prefix, pk1) != Key(prefix, pk2)
  {
    KeyReadsBack(prefix, pk1);
    KeyReadsBack(prefix, pk2);
  }

  /** The process-wide cache backend, as a map from keys to values; expiry and eviction are not modelled. */
  class Cache {
    var entries: map<string, CacheValue>

    constructor ()
      ensures entries == map[]
    {
      entries := map[];
    }

    /** `cache.get(key)`: `None` for a missing key. */
    function Get(key: string): (v: CacheValue)
      reads this
      ensures key !in entries ==> v == Nothing
      ensures key in entries ==> v == entries[key]
    {
      if key in entries then entries[key] else Nothing
    }

    /** `cache.set(key, value)`. */
    method Set(key: string, value: CacheValue)
      modifies this
      ensures entries == old(entries)[key := value]
    {
      entries := entries[key := value];
    }
  }

  /** A form as the serializer reads it: its primary key, metadata rows and object-permission rows. */
  datatype XForm = XForm(pk: int, metadata: seq<MetaRow>, permissions: seq<PermRow>)

  /** What a serializer method did: returned a value, or raised (an attribute of `None` was read). */
  datatype Answer = Returned(value: CacheValue) | Raised

  /**
   * `get_users`: with no form the attribute access on `None` raises; a
   * truthy cached list is returned as it is; otherwise the cached value is
   * written back, the rows are grouped per user and the entries are cached
   * and returned.
   */
  method GetUsers(cache: Cache, obj: Option<XForm>, prefix: string, role: seq<string> -> string) returns (r: Answer)
    modifies cache
    ensures obj.None? ==> r == Raised && cache.entries == old(cache.entries)
    ensures obj.Some? ==>
      var key := Key(prefix, obj.value.pk);
      var cached := old(cache.Get(key));
      if CachedTruthy(cached) then r == Returned(cached) && cache.entries == old(cache.entries)
      else
        var users := Users(UsersOf(obj.value.permissions, role));
        r == Returned(users) && cache.entries == old(cache.entries)[key := users]
  {
    if obj.None? {
      return Raised;
    }
    var xform := obj.value;
    var key := Key(prefix, xform.pk);
    var cached := cache.Get(key);
    if CachedTruthy(cached) {
      return Returned(cached);
    }
    cache.Set(key, cached);
    var entries := UserEntries(xform.permissions, role);
    cache.Set(key, Users(entries));
    return Returned(Users(entries));
  }

  /** The two loops of `get_users` together: one entry per user holding a permission, in first-seen order. */
  method UserEntries(perms: seq<PermRow>, role: seq<string> -> string) returns (entries: seq<UserEntry>)
    ensures entries == UsersOf(perms, role)
  {
    var order, data := GroupPermissions(perms);
    entries := FinishEntries(order, data, role);
  }

  /** The Enketo URL a form's metadata records, else the one just created (empty when creation failed). */
  function EnketoUrlOf(metadata: seq<MetaRow>, created: string): (r: string)
    ensures (forall j :: 0 <= j < |metadata| ==> metadata[j].dataType != "enketo_url") ==> r == created
    ensures r == created || exists j :: 0 <= j < |metadata| && metadata[j].dataType == "enketo_url" && metadata[j].dataValue == r
  {
    match FirstValue(metadata, "enketo_url")
    case Some(url) => url
    case None => created
  }

  /**
   * `get_enketo_url`: nothing without a form; a truthy cached URL as it
   * is; otherwise the recorded or newly created URL, written to the cache.
   * `created` is what `_create_enketo_url` returns for the form.
   */
  method GetEnketoUrl(cache: Cache, obj: Option<XForm>, prefix: string, created: string) returns (r: CacheValue)
    modifies cache
    ensures obj.None? ==> r == Nothing && cache.entries == old(cache.entries)
    ensures obj.Some? ==>
      var key := Key(prefix, obj.value.pk);
      var cached := old(cache.Get(key));
      if CachedTruthy(cached) then r == cached && cache.entries == old(cache.entries)
      else
        var url := Text(EnketoUrlOf(obj.value.metadata, created));
        r == url && cache.entries == old(cache.entries)[key := url]
  {
    if obj.None? {
      return Nothing;
    }
    var key := Key(prefix, obj.value.pk);
    var cached := cache.Get(key);
    if CachedTruthy(cached) {
      return cached;
    }
    var url := FirstValue(obj.value.metadata, "enketo_url");
    var value := if url.Some? then url.value else created;
    cache.Set(key, Text(value));
    return Text(value);
  }

  /**
   * `get_enketo_preview_url`: nothing without a form; a truthy cached URL
   * as it is; otherwise the recorded preview URL, or the one the Enketo
   * service returns (`preview`, `None` when the call raises). When the call
   * raises the answer is `None` and the cache is left alone.
   */
  method GetEnketoPreviewUrl(cache: Cache, obj: Option<XForm>, prefix: string, preview: Option<string>) returns (r: CacheValue)
    modifies cache
    ensures obj.None? ==> r == Nothing && cache.entries == old(cache.entries)
    ensures obj.Some? ==>
      var key := Key(prefix, obj.value.pk);
      var cached := old(cache.Get(key));
      var recorded := FirstValue(obj.value.metadata, "enketo_preview_url");
      if CachedTruthy(cached) then r == cached && cache.entries == old(cache.entries)
      else if recorded.None? && preview.None? then r == Nothing && cache.entries == old(cache.entries)
      else
        var url := Text(if recorded.Some? then recorded.value else preview.value);
        r == url && cache.entries == old(cache.entries)[key := url]
  {
    if obj.None? {
      return Nothing;
    }
    var key := Key(prefix, obj.value.pk);
    var cached := cache.Get(key);
    if CachedTruthy(cached) {
      return cached;
    }
    var url := FirstValue(obj.value.metadata, "enketo_preview_url");
    if url.None? {
      if preview.None? {
        return Nothing;
      }
      url := preview;
    }
    cache.Set(key, Text(url.value));
    return Text(url.value);
  }

  /**
   * `get_metadata`: an empty list without a form; a truthy cached list as
   * it is; otherwise the form's metadata rows, written to the cache even
   * when there are none.
   */
  method GetMetadata(cache: Cache, obj: Option<XForm>, prefix: string) returns (r: CacheValue)
    modifies cache
    ensures obj.None? ==> r == Rows([]) && cache.entries == old(cache.entries)
    ensures obj.Some? ==>
      var key := Key(prefix, obj.value.pk);
      var cached := old(cache.Get(key));
      if CachedTruthy(cached) then r == cached && cache.entries == old(cache.entries)
      else r == Rows(obj.value.metadata) && cache.entries == old(cache.entries)[key := r]
  {
    if obj.None? {
      return Rows([]);
    }
    var key := Key(prefix, obj.value.pk);
    var cached := cache.Get(key);
    if CachedTruthy(cached) {
      return cached;
    }
    r := Rows(obj.value.metadata);
    cache.Set(key, r);
  }

  /**
   * `get_form_versions`: an empty list without a form; a truthy cached
   * list as it is; otherwise the per-version counts of the form's live
   * submissions (`counts`, the query's result), written to the cache only
   * when there is at least one.
   */
  method GetFormVersions(cache: Cache, obj: Option<XForm>, prefix: string, counts: seq<VersionCount>) returns (r: CacheValue)
    modifies cache
    ensures obj.None? ==> r == Versions([]) && cache.entries == old(cache.entries)
    ensures obj.Some? ==>
      var key := Key(prefix, obj.value.pk);
      var cached := old(cache.Get(key));
      if CachedTruthy(cached) then r == cached && cache.entries == old(cache.entries)
      else
        && r == Versions(counts)
        && cache.entries == (if counts != [] then old(cache.entries)[key := r] else old(cache.entries))
  {
    if obj.None? {
      return Versions([]);
    }
    var key := Key(prefix, obj.value.pk);
    var cached := cache.Get(key);
    if CachedTruthy(cached) {
      return cached;
    }
    r := Versions(counts);
    if counts != [] {
      cache.Set(key, r);
    }
  }
}
