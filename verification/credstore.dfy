/** The in-memory part of the user credential store (`usp/credstore.py`).
    The store is the list of records read from the credentials file: each
    record is a JSON object, modelled as a map from field name to text, so
    missing fields and foreign record types are representable. The
    environment is a parameter. Saving to and loading from the file are not
    modelled. */
module CredStore {
  import opened Wrappers
  import opened Text

  /** A stored record (a JSON object with text values). */
  type Record = map<string, string>

  /** The process environment. */
  type Env = map<string, string>

  const DefaultHost := "https://core.mtp.group"

  datatype CoreCredentials = CoreCredentials(user: string, password: string, host: string)

  datatype ImageCredentials = ImageCredentials(ref: string, user: string, token: string)

  /** `record.get(key)`. */
  function Field(rec: Record, key: string): Option<string> {
    if key in rec then Some(rec[key]) else None
  }

  /** `record.get(key, default)`. */
  function FieldOr(rec: Record, key: string, default: string): string {
    if key in rec then rec[key] else default
  }

  /** `os.getenv(name)`. */
  function Getenv(env: Env, name: string): Option<string> {
    if name in env then Some(env[name]) else None
  }

  /** `CoreCredentials(...).to_dict()`. */
  function CoreRecord(c: CoreCredentials): Record {
    map["type" := "core", "user" := c.user, "password" := c.password, "host" := c.host]
  }

  /** `ImageCredentials(...).to_dict()`. */
  function ImageRecord(c: ImageCredentials): Record {
    map["type" := "image", "ref" := c.ref, "user" := c.user, "token" := c.token]
  }

  predicate IsCore(rec: Record) {
    Field(rec, "type") == Some("core")
  }

  predicate IsImage(rec: Record) {
    Field(rec, "type") == Some("image")
  }

  /** An image record stored for exactly `ref`. */
  predicate IsImageFor(rec: Record, ref: string) {
    IsImage(rec) && Field(rec, "ref") == Some(ref)
  }

  /** A core record stored for exactly `username`. */
  predicate IsCoreOf(rec: Record, username: string) {
    IsCore(rec) && Field(rec, "user") == Some(username)
  }

  /** Filtering by a test that implies an earlier one is the same as
      filtering by the later test alone. */
  lemma {:induction false} FilterSubsumed(s: seq<Record>, p: Record -> bool, q: Record -> bool)
    requires forall x :: q(x) ==> p(x)
    ensures Filter(Filter(s, p), q) == Filter(s, q)
    decreases |s|
  {
    if |s| > 0 {
      FilterSubsumed(s[1..], p, q);
      if p(s[0]) {
        assert ([s[0]] + Filter(s[1..], p))[1..] == Filter(s[1..], p);
      }
    }
  }

  /** `add_core_credentials(user, password, host, replace)`: with `replace`
      every core record goes first; the new record is appended last. */
  function AddCore(creds: seq<Record>, user: string, password: string, host: string, replace: bool)
    : (r: (seq<Record>, CoreCredentials))
    ensures r.1 == CoreCredentials(user, password, host)
    ensures |r.0| > 0 && r.0[|r.0| - 1] == CoreRecord(r.1)
    ensures !replace ==> r.0 == creds + [CoreRecord(r.1)]
    ensures replace ==> forall i :: 0 <= i < |r.0| - 1 ==> !IsCore(r.0[i])
    ensures replace ==> Filter(r.0, IsImage) == Filter(creds, IsImage)
    ensures replace ==> r.0 == Filter(creds, rec => !IsCore(rec)) + [CoreRecord(r.1)]
  {
    var c := CoreCredentials(user, password, host);
    var kept := if replace then Filter(creds, rec => !IsCore(rec)) else creds;
    FilterSubsumed(creds, rec => !IsCore(rec), IsImage);
    FilterAppend(kept, [CoreRecord(c)], IsImage);
    FilterHolds(creds, rec => !IsCore(rec));
    (kept + [CoreRecord(c)], c)
  }

  /** `add_image_credentials(ref, user, token, replace)`: with `replace`
      only image records of exactly the same ref go first. */
  function AddImage(creds: seq<Record>, ref: string, user: string, token: string, replace: bool)
    : (r: (seq<Record>, ImageCredentials))
    ensures r.1 == ImageCredentials(ref, user, token)
    ensures !replace ==> r.0 == creds + [ImageRecord(r.1)]
    ensures replace ==> r.0 == Filter(creds, rec => !IsImageFor(rec, ref)) + [ImageRecord(r.1)]
    ensures replace ==> forall i :: 0 <= i < |r.0| - 1 ==> !IsImageFor(r.0[i], ref)
  {
    var c := ImageCredentials(ref, user, token);
    var kept := if replace then Filter(creds, rec => !IsImageFor(rec, ref)) else creds;
    FilterHolds(creds, rec => !IsImageFor(rec, ref));
    (kept + [ImageRecord(c)], c)
  }

  /** Both environment values are set and non-empty. */
  predicate Overrides(env: Env, userVar: string, secretVar: string) {
    Truthy(Getenv(env, userVar)) && Truthy(Getenv(env, secretVar))
  }

  /** Position of the first record satisfying `p`. */
  function First(creds: seq<Record>, p: Record -> bool): (r: Option<nat>)
    ensures r.Some? ==> r.value < |creds| && p(creds[r.value]) && forall j :: 0 <= j < r.value ==> !p(creds[j])
    ensures r.None? ==> forall j :: 0 <= j < |creds| ==> !p(creds[j])
    decreases |creds|
  {
    if |creds| == 0 then None
    else if p(creds[0]) then Some(0)
    else
      match First(creds[1..], p)
      case None => None
      case Some(i) => Some(i + 1)
  }

  /** `get_core_credentials(username)`: the environment wins when both
      MALEVICH_USER and MALEVICH_PASSWORD are non-empty (the username is
      then ignored); otherwise the first stored core record of that user,
      a missing host reading as the default. */
  function GetCore(creds: seq<Record>, env: Env, username: string): (r: Option<CoreCredentials>)
    ensures Overrides(env, "MALEVICH_USER", "MALEVICH_PASSWORD") ==>
      r == Some(CoreCredentials(env["MALEVICH_USER"], env["MALEVICH_PASSWORD"],
                                OrElse(Getenv(env, "MALEVICH_HOST"), DefaultHost)))
    ensures !Overrides(env, "MALEVICH_USER", "MALEVICH_PASSWORD") ==>
      && (r.None? <==> forall j :: 0 <= j < |creds| ==> !IsCoreOf(creds[j], username))
      && (r.Some? ==> exists i ::
            && 0 <= i < |creds| && IsCoreOf(creds[i], username)
            && (forall j :: 0 <= j < i ==> !IsCoreOf(creds[j], username))
            && r.value == CoreCredentials(
                 username, FieldOr(creds[i], "password", ""), FieldOr(creds[i], "host", DefaultHost)))
  {
    if Overrides(env, "MALEVICH_USER", "MALEVICH_PASSWORD") then
      Some(CoreCredentials(env["MALEVICH_USER"], env["MALEVICH_PASSWORD"],
                           OrElse(Getenv(env, "MALEVICH_HOST"), DefaultHost)))
    else
      match First(creds, rec => IsCoreOf(rec, username))
      case None => None
      case Some(i) =>
        var rec := creds[i];
        Some(CoreCredentials(FieldOr(rec, "user", ""), FieldOr(rec, "password", ""), FieldOr(rec, "host", DefaultHost)))
  }

  /** `get_image_credentials(ref)`: the environment wins when both
      MALEVICH_IMAGE_USER and MALEVICH_IMAGE_TOKEN are non-empty, for
      whatever ref is asked; otherwise the first image record whose ref is
      exactly `ref` (no prefix matching). */
  function GetImage(creds: seq<Record>, env: Env, ref: string): (r: Option<ImageCredentials>)
    ensures Overrides(env, "MALEVICH_IMAGE_USER", "MALEVICH_IMAGE_TOKEN") ==>
      r == Some(ImageCredentials(ref, env["MALEVICH_IMAGE_USER"], env["MALEVICH_IMAGE_TOKEN"]))
    ensures !Overrides(env, "MALEVICH_IMAGE_USER", "MALEVICH_IMAGE_TOKEN") ==>
      && (r.None? <==> forall j :: 0 <= j < |creds| ==> !IsImageFor(creds[j], ref))
      && (r.Some? ==> exists i ::
            && 0 <= i < |creds| && IsImageFor(creds[i], ref)
            && (forall j :: 0 <= j < i ==> !IsImageFor(creds[j], ref))
            && r.value == ImageCredentials(ref, FieldOr(creds[i], "user", ""), FieldOr(creds[i], "token", "")))
  {
    if Overrides(env, "MALEVICH_IMAGE_USER", "MALEVICH_IMAGE_TOKEN") then
      Some(ImageCredentials(ref, env["MALEVICH_IMAGE_USER"], env["MALEVICH_IMAGE_TOKEN"]))
    else
      match First(creds, rec => IsImageFor(rec, ref))
      case None => None
      case Some(i) =>
        var rec := creds[i];
        Some(ImageCredentials(FieldOr(rec, "ref", ""), FieldOr(rec, "user", ""), FieldOr(rec, "token", "")))
  }

  /** The credentials an image record reads as. */
  function ImageOf(rec: Record): ImageCredentials {
    ImageCredentials(FieldOr(rec, "ref", ""), FieldOr(rec, "user", ""), FieldOr(rec, "token", ""))
  }

  /** `get_all_image_credentials()`: the image records, in stored order. */
  function GetAllImage(creds: seq<Record>): (r: seq<ImageCredentials>)
    ensures |r| == |Filter(creds, IsImage)|
    ensures forall i :: 0 <= i < |r| ==> r[i] == ImageOf(Filter(creds, IsImage)[i])
  {
    var images := Filter(creds, IsImage);
    seq(|images|, i requires 0 <= i < |images| => ImageOf(images[i]))
  }

  /** `remove_core_credentials()`: drops every core record and tells
      whether there was one. */
  function RemoveCore(creds: seq<Record>): (r: (seq<Record>, bool))
    ensures r.1 <==> exists x :: x in creds && IsCore(x)
    ensures forall x :: x in r.0 <==> x in creds && !IsCore(x)
    ensures r.0 == Filter(creds, rec => !IsCore(rec))
  {
    var kept := Filter(creds, rec => !IsCore(rec));
    FilterShrinks(creds, rec => !IsCore(rec));
    (kept, |kept| < |creds|)
  }

  /** `remove_image_credentials(ref)`: drops the image records of exactly
      `ref` and tells whether there was one. */
  function RemoveImage(creds: seq<Record>, ref: string): (r: (seq<Record>, bool))
    ensures r.1 <==> exists x :: x in creds && IsImageFor(x, ref)
    ensures forall x :: x in r.0 <==> x in creds && !IsImageFor(x, ref)
    ensures r.0 == Filter(creds, rec => !IsImageFor(rec, ref))
  {
    var kept := Filter(creds, rec => !IsImageFor(rec, ref));
    FilterShrinks(creds, rec => !IsImageFor(rec, ref));
    (kept, |kept| < |creds|)
  }

  /** A summary line of `list_all`: no password, no token. Records of
      other types never reach it. */
  type Summary = map<string, Option<string>>

  function SummaryOf(rec: Record): (r: Summary)
    ensures "password" !in r && "token" !in r
    ensures IsCore(rec) ==> r == map["type" := Some("core"), "user" := Field(rec, "user"), "host" := Field(rec, "host")]
    ensures IsImage(rec) ==> r == map["type" := Some("image"), "ref" := Field(rec, "ref"), "user" := Field(rec, "user")]
  {
    if IsCore(rec) then map["type" := Some("core"), "user" := Field(rec, "user"), "host" := Field(rec, "host")]
    else map["type" := Some("image"), "ref" := Field(rec, "ref"), "user" := Field(rec, "user")]
  }

  predicate Listed(rec: Record) {
    IsCore(rec) || IsImage(rec)
  }

  /** `list_all()`: one summary per core or image record, in stored order;
      records of any other type are skipped. */
  function ListAll(creds: seq<Record>): (r: seq<Summary>)
    ensures |r| == |Filter(creds, Listed)|
    ensures forall i :: 0 <= i < |r| ==> r[i] == SummaryOf(Filter(creds, Listed)[i])
    ensures forall i :: 0 <= i < |r| ==> "password" !in r[i] && "token" !in r[i]
  {
    var listed := Filter(creds, Listed);
    FilterHolds(creds, Listed);
    seq(|listed|, i requires 0 <= i < |listed| => SummaryOf(listed[i]))
  }

  /** `clear_all()`: the store forgets every record. */
  function ClearAll(creds: seq<Record>): (r: seq<Record>)
    ensures |r| == 0
  {
    []
  }

  /** After `clear_all`, only the environment can still answer. */
  lemma ClearAllForgets(creds: seq<Record>, env: Env, username: string, ref: string)
    ensures var s := ClearAll(creds);
      && (!Overrides(env, "MALEVICH_USER", "MALEVICH_PASSWORD") ==> GetCore(s, env, username).None?)
      && (!Overrides(env, "MALEVICH_IMAGE_USER", "MALEVICH_IMAGE_TOKEN") ==> GetImage(s, env, ref).None?)
      && GetAllImage(s) == [] && ListAll(s) == []
  {
  }

  /** With no environment override, the core record just added with
      `replace` is the one read back. */
  lemma AddCoreThenGet(creds: seq<Record>, env: Env, user: string, password: string, host: string)
    requires !Overrides(env, "MALEVICH_USER", "MALEVICH_PASSWORD")
    ensures GetCore(AddCore(creds, user, password, host, true).0, env, user)
      == Some(CoreCredentials(user, password, host))
  {
    var s := AddCore(creds, user, password, host, true).0;
    var p := rec => IsCoreOf(rec, user);
    assert First(s, p) == Some(|s| - 1) by {
      FirstIsLast(s, p);
    }
  }

  /** Without `replace`, an older core record of the same user shadows the
      one just added. */
  lemma AddCoreKeepsOlder(creds: seq<Record>, env: Env, user: string, password: string, host: string)
    requires !Overrides(env, "MALEVICH_USER", "MALEVICH_PASSWORD")
    requires GetCore(creds, env, user).Some?
    ensures GetCore(AddCore(creds, user, password, host, false).0, env, user) == GetCore(creds, env, user)
  {
    var p := rec => IsCoreOf(rec, user);
    FirstAppend(creds, [CoreRecord(CoreCredentials(user, password, host))], p);
  }

  /** With no environment override, the image record just added with
      `replace` is the one read back for its ref. */
  lemma AddImageThenGet(creds: seq<Record>, env: Env, ref: string, user: string, token: string)
    requires !Overrides(env, "MALEVICH_IMAGE_USER", "MALEVICH_IMAGE_TOKEN")
    ensures GetImage(AddImage(creds, ref, user, token, true).0, env, ref)
      == Some(ImageCredentials(ref, user, token))
  {
    var s := AddImage(creds, ref, user, token, true).0;
    var p := rec => IsImageFor(rec, ref);
    assert First(s, p) == Some(|s| - 1) by {
      FirstIsLast(s, p);
    }
  }

  /** Only the last record can satisfy `p`: it is the first that does. */
  lemma FirstIsLast(s: seq<Record>, p: Record -> bool)
    requires |s| > 0 && p(s[|s| - 1])
    requires forall j :: 0 <= j < |s| - 1 ==> !p(s[j])
    ensures First(s, p) == Some(|s| - 1)
  {
  }

  /** Appending records keeps a first match where it was. */
  lemma FirstAppend(s: seq<Record>, t: seq<Record>, p: Record -> bool)
    requires First(s, p).Some?
    ensures First(s + t, p) == First(s, p)
  {
    var i := First(s, p).value;
    assert (s + t)[i] == s[i];
    assert forall j :: 0 <= j < i ==> (s + t)[j] == s[j];
  }
}
