/** The function-reference parser of `utils.py`: a text
    `name::<reference>` becomes a FunctionRef. Four regular expressions are
    tried in a fixed order and the first that matches wins:

      1. `name::$<id>`                               id in [a-f0-9-]+
      2. `name::user:password@registry/path:tag[@sha256:<hex>]`
      3. `name::user:password/image:tag[@sha256:<hex>]`
      4. `name::image:tag[@sha256:<hex>]`

    The regular expressions are modelled step by step with their exact
    Python `re.match` semantics: `[^c]+c` stops at the first `c`, the image
    path of form 2 is lazy (`.+?`, and `.` does not match a newline), the
    tag is greedy, and `$` also matches just before a final newline. All
    four expressions begin with `^([^:]+)::`, which fixes the processor id
    to the text before the first `:`; that common step is taken once. */
module FunctionRefs {
  import opened Wrappers
  import opened Text

  /** The parsed reference (`FunctionRef` of the SDK's image module). */
  datatype FunctionRef = FunctionRef(
    processorId: string,
    user: Option<string>,
    token: Option<string>,
    ref: string,
    tag: string,
    syncRef: bool)

  predicate IsHex(c: char) {
    ('0' <= c <= '9') || ('a' <= c <= 'f')
  }

  /** `[a-f0-9-]` when `dash` holds, `[a-f0-9]` otherwise. */
  predicate InClass(c: char, dash: bool) {
    IsHex(c) || (dash && c == '-')
  }

  predicate AllInClass(s: string, dash: bool) {
    forall i :: 0 <= i < |s| ==> InClass(s[i], dash)
  }

  /** `[class]+$`: the matched text, where `$` matches at the end or just
      before a final newline. */
  function MatchToEnd(u: string, dash: bool): (r: Option<string>)
    ensures r.Some? ==> |r.value| > 0 && AllInClass(r.value, dash)
    ensures r.Some? ==> u == r.value || u == r.value + "\n"
    ensures r.None? <==>
      !((|u| > 0 && AllInClass(u, dash))
        || (|u| > 1 && u[|u| - 1] == '\n' && AllInClass(u[..|u| - 1], dash)))
  {
    if |u| > 0 && AllInClass(u, dash) then Some(u)
    else if |u| > 1 && u[|u| - 1] == '\n' && AllInClass(u[..|u| - 1], dash) then
      assert u == u[..|u| - 1] + "\n";
      Some(u[..|u| - 1])
    else None
  }

  /** A character outside the class that is not a newline defeats `[class]+$`. */
  lemma MatchToEndRejects(u: string, dash: bool, i: nat)
    requires i < |u| && !InClass(u[i], dash) && u[i] != '\n'
    ensures MatchToEnd(u, dash).None?
  {
    if |u| > 1 && u[|u| - 1] == '\n' {
      assert i < |u| - 1;
      assert u[..|u| - 1][i] == u[i];
    }
  }

  /** The text `@<digest>` that follows the tag, or nothing. */
  function DigestSuffix(digest: Option<string>): string {
    if digest.Some? then "@" + digest.value else ""
  }

  /** `([^@]+)(?:@(sha256:[a-f0-9]+))?$`: the tag and the optional digest.
      The tag is greedy, so it keeps a final newline when there is no
      digest; after a digest, `$` lets a final newline go unmatched. */
  function TagDigest(t: string): (r: Option<(string, Option<string>)>)
    ensures r.Some? ==> |r.value.0| > 0 && '@' !in r.value.0
    ensures r.Some? ==>
      t == r.value.0 + DigestSuffix(r.value.1)
      || (r.value.1.Some? && t == (r.value.0 + DigestSuffix(r.value.1)) + "\n")
  {
    match Find(t, '@')
    case None => if |t| > 0 then Some((t, None)) else None
    case Some(m) =>
      if m == 0 then None
      else
        var d := t[m + 1..];
        if |d| >= 7 && d[..7] == "sha256:" then
          match MatchToEnd(d[7..], false)
          case None => None
          case Some(h) =>
            assert t == t[..m] + ("@" + ("sha256:" + d[7..]));
            Some((t[..m], Some("sha256:" + h)))
        else None
  }

  /** A digest the SDK accepts: `sha256:` and lower-case hex digits. */
  predicate ValidDigest(digest: Option<string>) {
    digest.Some? ==>
      |digest.value| > 7 && digest.value[..7] == "sha256:" && AllInClass(digest.value[7..], false)
  }

  /** A tag followed by a well-formed digest is read back unchanged. */
  lemma TagDigestOf(tag: string, digest: Option<string>)
    requires |tag| > 0 && '@' !in tag && ValidDigest(digest)
    ensures TagDigest(tag + DigestSuffix(digest)) == Some((tag, digest))
  {
    var t := tag + DigestSuffix(digest);
    if digest.Some? {
      var h := digest.value[7..];
      assert t == tag + (['@'] + digest.value);
      FindOf(tag, '@', digest.value);
      assert t[..|tag|] == tag;
      assert t[|tag| + 1..] == digest.value;
      assert digest.value == "sha256:" + h;
    } else {
      assert t == tag;
    }
  }

  /** `^([^:]+)::` — the processor id and the text after `::`. The prefix
      is missing exactly when there is no `:`, the text starts with `:`,
      or its first `:` is not followed by another. */
  function SplitName(s: string): (r: Option<(string, string)>)
    ensures r.Some? ==> s == r.value.0 + ("::" + r.value.1)
    ensures r.Some? ==> |r.value.0| > 0 && ':' !in r.value.0
    ensures ':' !in s ==> r.None?
    ensures r.None? <==>
      || Find(s, ':').None?
      || Find(s, ':').value == 0
      || Find(s, ':').value + 1 == |s|
      || s[Find(s, ':').value + 1] != ':'
  {
    match SplitAt(s, ':')
    case None => None
    case Some((name, after)) =>
      FindOf(name, ':', after);
      assert s[|name| + 1..] == after;
      if |after| > 0 && after[0] == ':' then
        assert after == [':'] + after[1..];
        assert [':'] + after == "::" + after[1..];
        Some((name, after[1..]))
      else None
  }

  lemma SplitNameOf(name: string, rest: string)
    requires |name| > 0 && ':' !in name
    ensures SplitName(name + ("::" + rest)) == Some((name, rest))
  {
    assert "::" + rest == [':'] + ([':'] + rest);
    SplitAtOf(name, ':', [':'] + rest);
  }

  /** Form 1 after `::`: `\$([a-f0-9-]+)$`, yielding the id. */
  function MatchPinned(rest: string): (r: Option<string>)
    ensures r.Some? ==> |r.value| > 0 && AllInClass(r.value, true)
    ensures r.Some? ==> rest == "$" + r.value || rest == ("$" + r.value) + "\n"
  {
    if |rest| > 0 && rest[0] == '$' then
      assert rest == "$" + rest[1..];
      MatchToEnd(rest[1..], true)
    else None
  }

  /** Any `:` in the text after `::` rules out form 1. */
  lemma PinnedRejectsColon(rest: string, i: nat)
    requires i < |rest| && rest[i] == ':'
    ensures MatchPinned(rest).None?
  {
    if |rest| > 0 && rest[0] == '$' {
      assert i > 0;
      assert rest[1..][i - 1] == ':';
      MatchToEndRejects(rest[1..], true, i - 1);
    }
  }

  /** The lazy `(.+?):` of form 2 followed by the tag and digest: the first
      end position `j` of the path, scanning upwards, whose `:` is followed
      by a valid tag; the scan stops at a newline, which `.` cannot match. */
  function LazyImagePath(p: string, j: nat): (r: Option<(string, string)>)
    requires 1 <= j <= |p| + 1 && '\n' !in p[..j - 1]
    ensures r.Some? ==> j <= |r.value.0| && p == r.value.0 + (":" + r.value.1)
    ensures r.Some? ==> '\n' !in r.value.0 && TagDigest(r.value.1).Some?
    decreases |p| - j
  {
    if j >= |p| then None
    else if p[j - 1] == '\n' then None
    else
      assert p[..j] == p[..j - 1] + [p[j - 1]];
      if p[j] == ':' && TagDigest(p[j + 1..]).Some? then
        assert p == p[..j] + (":" + p[j + 1..]);
        Some((p[..j], p[j + 1..]))
      else LazyImagePath(p, j + 1)
  }

  /** With a `:`-free, newline-free path, the lazy scan stops right after it. */
  lemma {:induction false} LazyImagePathOf(path: string, t: string, j: nat)
    requires 1 <= j <= |path| && ':' !in path && '\n' !in path
    requires TagDigest(t).Some?
    ensures LazyImagePath(path + (":" + t), j) == Some((path, t))
    decreases |path| - j
  {
    var p := path + (":" + t);
    assert p[..j - 1] == path[..j - 1];
    assert p[j - 1] == path[j - 1];
    if j < |path| {
      assert p[j] == path[j];
      LazyImagePathOf(path, t, j + 1);
    } else {
      assert p[j] == ':';
      assert p[j + 1..] == t;
      assert p[..j] == path;
    }
  }

  /** Form 2 after `::`: `user:password@registry/path:tail`, where the tail
      reads as `tag[@digest]`. */
  datatype RegistryMatch = RegistryMatch(
    user: string, password: string, registry: string, path: string, tail: string)

  function MatchRegistry(rest: string): (r: Option<RegistryMatch>)
    ensures r.Some? ==>
      var m := r.value;
      && |m.user| > 0 && ':' !in m.user
      && |m.password| > 0 && '@' !in m.password
      && |m.registry| > 0 && '/' !in m.registry
      && rest == m.user + (":" + (m.password + ("@" + (m.registry + ("/" + (m.path + (":" + m.tail)))))))
      && TagDigest(m.tail).Some?
  {
    match SplitAt(rest, ':')
    case None => None
    case Some((user, r1)) =>
      match SplitAt(r1, '@')
      case None => None
      case Some((password, r2)) =>
        match SplitAt(r2, '/')
        case None => None
        case Some((registry, r3)) =>
          match LazyImagePath(r3, 1)
          case None => None
          case Some((path, tail)) =>
            Some(RegistryMatch(user, password, registry, path, tail))
  }

  /** Form 3 after `::`: `user:password/image:tail`. */
  datatype LegacyMatch = LegacyMatch(user: string, password: string, image: string, tail: string)

  function MatchLegacy(rest: string): (r: Option<LegacyMatch>)
    ensures r.Some? ==>
      var m := r.value;
      && |m.user| > 0 && ':' !in m.user
      && |m.password| > 0 && '/' !in m.password
      && |m.image| > 0 && ':' !in m.image
      && rest == m.user + (":" + (m.password + ("/" + (m.image + (":" + m.tail)))))
      && TagDigest(m.tail).Some?
  {
    match SplitAt(rest, ':')
    case None => None
    case Some((user, r1)) =>
      match SplitAt(r1, '/')
      case None => None
      case Some((password, r2)) =>
        match SplitAt(r2, ':')
        case None => None
        case Some((image, r3)) =>
          if TagDigest(r3).Some? then Some(LegacyMatch(user, password, image, r3)) else None
  }

  /** Form 4 after `::`: `image:tail`. */
  datatype PlainMatch = PlainMatch(image: string, tail: string)

  function MatchPlain(rest: string): (r: Option<PlainMatch>)
    ensures r.Some? ==>
      && |r.value.image| > 0 && ':' !in r.value.image
      && rest == r.value.image + (":" + r.value.tail)
      && TagDigest(r.value.tail).Some?
  {
    match SplitAt(rest, ':')
    case None => None
    case Some((image, r1)) =>
      if TagDigest(r1).Some? then Some(PlainMatch(image, r1)) else None
  }

  /** The reference `image:tag[@digest]` the SDK rebuilds from a matched
      tail; a newline the tail had after a digest is not part of it. */
  function RefOfTail(image: string, tail: string): (ref: string)
    requires TagDigest(tail).Some?
    ensures image + (":" + tail) == ref || image + (":" + tail) == ref + "\n"
  {
    var td := TagDigest(tail).value;
    var ref := image + (":" + (td.0 + DigestSuffix(td.1)));
    assert (image + (":" + (td.0 + DigestSuffix(td.1)))) + "\n"
        == image + (":" + ((td.0 + DigestSuffix(td.1)) + "\n"));
    ref
  }

  function InvalidReference(s: string): Error {
    ValueError("Invalid function reference: " + s)
  }

  /** `s` is `processorId::ref`, `processorId::user:token@ref` or
      `processorId::user:token/ref`, followed by `nl`. */
  predicate RendersAs(f: FunctionRef, s: string, nl: string) {
    if f.user.None? || f.token.None? then
      s == f.processorId + ("::" + (f.ref + nl))
    else
      s == f.processorId + ("::" + (f.user.value + (":" + (f.token.value + ("@" + (f.ref + nl))))))
      || s == f.processorId + ("::" + (f.user.value + (":" + (f.token.value + ("/" + (f.ref + nl))))))
  }

  /** Some of the four forms matches the text after `::`. */
  predicate FormMatches(rest: string) {
    MatchPinned(rest).Some? || MatchRegistry(rest).Some? || MatchLegacy(rest).Some? || MatchPlain(rest).Some?
  }

  /** The reference of form 1, 2, 3 or 4 read from the text after `::`,
      trying the forms in that order. */
  function Resolve(name: string, rest: string): (r: Option<FunctionRef>)
    ensures r.Some? <==> FormMatches(rest)
    ensures r.Some? ==>
      && r.value.processorId == name && r.value.tag == "" && r.value.syncRef
      && (r.value.user.Some? <==> r.value.token.Some?)
  {
    if MatchPinned(rest).Some? then
      Some(FunctionRef(name, None, None, "$" + MatchPinned(rest).value, "", true))
    else if MatchRegistry(rest).Some? then
      var m := MatchRegistry(rest).value;
      Some(FunctionRef(name, Some(m.user), Some(m.password),
                       RefOfTail(m.registry + ("/" + m.path), m.tail), "", true))
    else if MatchLegacy(rest).Some? then
      var m := MatchLegacy(rest).value;
      Some(FunctionRef(name, Some(m.user), Some(m.password), RefOfTail(m.image, m.tail), "", true))
    else if MatchPlain(rest).Some? then
      var m := MatchPlain(rest).value;
      Some(FunctionRef(name, None, None, RefOfTail(m.image, m.tail), "", true))
    else None
  }

  /** Whatever form matched, the text after `::` is the credentials (if
      any) followed by the rebuilt reference, up to a final newline. */
  lemma ResolveRenders(name: string, rest: string)
    requires Resolve(name, rest).Some?
    ensures var f := Resolve(name, rest).value;
      f.processorId == name && f.tag == "" && f.syncRef
      && (f.user.Some? <==> f.token.Some?)
      && (RendersAs(f, name + ("::" + rest), "") || RendersAs(f, name + ("::" + rest), "\n"))
  {
    if MatchPinned(rest).Some? {
      var f := Resolve(name, rest).value;
      assert f.ref + "" == f.ref;
    } else if MatchRegistry(rest).Some? {
      RegistryRenders(name, rest, MatchRegistry(rest).value);
    } else if MatchLegacy(rest).Some? {
      CredentialRenders(name, MatchLegacy(rest).value.user, MatchLegacy(rest).value.password,
        "/", MatchLegacy(rest).value.image, MatchLegacy(rest).value.tail);
    } else {
      var f := Resolve(name, rest).value;
      assert f.ref + "" == f.ref;
    }
  }

  lemma RegistryRenders(name: string, rest: string, m: RegistryMatch)
    requires rest == m.user + (":" + (m.password + ("@" + (m.registry + ("/" + (m.path + (":" + m.tail)))))))
    requires TagDigest(m.tail).Some?
    ensures var f := FunctionRef(name, Some(m.user), Some(m.password),
                                 RefOfTail(m.registry + ("/" + m.path), m.tail), "", true);
      RendersAs(f, name + ("::" + rest), "") || RendersAs(f, name + ("::" + rest), "\n")
  {
    assert m.registry + ("/" + (m.path + (":" + m.tail)))
        == (m.registry + ("/" + m.path)) + (":" + m.tail);
    CredentialRenders(name, m.user, m.password, "@", m.registry + ("/" + m.path), m.tail);
  }

  lemma CredentialRenders(name: string, user: string, password: string, sep: string,
                          image: string, tail: string)
    requires sep == "@" || sep == "/"
    requires TagDigest(tail).Some?
    ensures var f := FunctionRef(name, Some(user), Some(password), RefOfTail(image, tail), "", true);
      var s := name + ("::" + (user + (":" + (password + (sep + (image + (":" + tail)))))));
      RendersAs(f, s, "") || RendersAs(f, s, "\n")
  {
    var ref := RefOfTail(image, tail);
    assert ref + "" == ref;
  }

  /** `parse_fn`. */
  function ParseFn(s: string): (r: Result<FunctionRef>)
    ensures r.Err? ==> r.error == InvalidReference(s)
    ensures ':' !in s ==> r.Err?
    ensures r.Ok? <==> SplitName(s).Some? && FormMatches(SplitName(s).value.1)
    ensures r.Ok? ==> r.value.tag == "" && r.value.syncRef
    ensures r.Ok? ==>
      var id := r.value.processorId;
      |id| > 0 && ':' !in id && |s| >= |id| + 2 && s == id + ("::" + s[|id| + 2..])
    ensures r.Ok? ==> (r.value.user.Some? <==> r.value.token.Some?)
    ensures r.Ok? ==> RendersAs(r.value, s, "") || RendersAs(r.value, s, "\n")
  {
    match SplitName(s)
    case None => Err(InvalidReference(s))
    case Some((name, rest)) =>
      match Resolve(name, rest)
      case None => Err(InvalidReference(s))
      case Some(f) =>
        ResolveRenders(name, rest);
        assert s[|name| + 2..] == rest;
        Ok(f)
  }

  /** A valid digest contains neither `/` nor `@`. */
  lemma DigestChars(digest: Option<string>)
    requires ValidDigest(digest)
    ensures '/' !in DigestSuffix(digest)
    ensures digest.Some? ==> '@' !in digest.value && '/' !in digest.value
  {
    if digest.Some? {
      var h := digest.value[7..];
      assert digest.value == "sha256:" + h;
      assert '/' !in h && '@' !in h by {
        forall i | 0 <= i < |h| ensures h[i] != '/' && h[i] != '@' {
          assert InClass(h[i], false);
        }
      }
      assert DigestSuffix(digest) == "@" + digest.value;
    }
  }

  /** After the processor id, parsing is the ordered trial of the forms on
      the rest: it succeeds exactly when some form matches, with that
      form's reading, and fails with the ValueError otherwise. */
  lemma ParseOf(name: string, rest: string)
    requires |name| > 0 && ':' !in name
    ensures ParseFn(name + ("::" + rest)).Ok? <==> FormMatches(rest)
    ensures FormMatches(rest) ==>
      Resolve(name, rest).Some? && ParseFn(name + ("::" + rest)) == Ok(Resolve(name, rest).value)
    ensures !FormMatches(rest) ==>
      ParseFn(name + ("::" + rest)) == Err(InvalidReference(name + ("::" + rest)))
  {
    SplitNameOf(name, rest);
  }

  /** A `name::` text that no form reads, such as `a::x`, raises the
      ValueError. */
  lemma NoFormFails()
    ensures ParseFn("a::x") == Err(InvalidReference("a::x"))
  {
    ParseOf("a", "x");
  }

  /** A text whose first `:` is not doubled, such as `proc:image:tag`,
      raises the ValueError. */
  lemma SingleColonFails(name: string, rest: string)
    requires |name| > 0 && ':' !in name
    requires |rest| == 0 || rest[0] != ':'
    ensures ParseFn(name + (":" + rest)) == Err(InvalidReference(name + (":" + rest)))
  {
    FindOf(name, ':', rest);
  }

  /** Form 1: `name::$<id>` pins the pre-registered reference `$<id>`. */
  lemma PinnedForm(name: string, id: string)
    requires |name| > 0 && ':' !in name
    requires |id| > 0 && AllInClass(id, true)
    ensures ParseFn(name + ("::" + ("$" + id))) == Ok(FunctionRef(name, None, None, "$" + id, "", true))
  {
    var rest := "$" + id;
    SplitNameOf(name, rest);
    assert rest[1..] == id;
  }

  /** Form 2 reads back its pieces: user and password become the
      credentials, and the reference is `registry/path:tag[@digest]`. */
  lemma RegistryForm(name: string, user: string, password: string, registry: string,
                     path: string, tag: string, digest: Option<string>)
    requires |name| > 0 && ':' !in name
    requires |user| > 0 && ':' !in user
    requires |password| > 0 && '@' !in password
    requires |registry| > 0 && '/' !in registry
    requires |path| > 0 && ':' !in path && '\n' !in path
    requires |tag| > 0 && '@' !in tag && ValidDigest(digest)
    ensures var tail := tag + DigestSuffix(digest);
      var rest := user + (":" + (password + ("@" + (registry + ("/" + (path + (":" + tail)))))));
      ParseFn(name + ("::" + rest))
        == Ok(FunctionRef(name, Some(user), Some(password),
                          registry + ("/" + (path + (":" + tail))), "", true))
  {
    var tail := tag + DigestSuffix(digest);
    var rest := user + (":" + (password + ("@" + (registry + ("/" + (path + (":" + tail)))))));
    var f := FunctionRef(name, Some(user), Some(password), registry + ("/" + (path + (":" + tail))), "", true);
    RegistryResolves(name, user, password, registry, path, tag, digest);
    ParseOf(name, rest);
  }

  lemma RegistryResolves(name: string, user: string, password: string, registry: string,
                         path: string, tag: string, digest: Option<string>)
    requires |user| > 0 && ':' !in user
    requires |password| > 0 && '@' !in password
    requires |registry| > 0 && '/' !in registry
    requires |path| > 0 && ':' !in path && '\n' !in path
    requires |tag| > 0 && '@' !in tag && ValidDigest(digest)
    ensures var tail := tag + DigestSuffix(digest);
      var rest := user + (":" + (password + ("@" + (registry + ("/" + (path + (":" + tail)))))));
      Resolve(name, rest)
        == Some(FunctionRef(name, Some(user), Some(password),
                            registry + ("/" + (path + (":" + tail))), "", true))
  {
    var tail := tag + DigestSuffix(digest);
    var r3 := path + (":" + tail);
    var r2 := registry + ("/" + r3);
    var r1 := password + ("@" + r2);
    var rest := user + (":" + r1);
    var m := RegistryMatch(user, password, registry, path, tail);
    PinnedRejectsColon(rest, |user|);
    RegistryMatchOf(user, password, registry, path, tag, digest);
    RegistryRef(registry, path, tag, digest);
    ResolveRegistry(name, rest, m);
  }

  /** The form-2 reading of `user:password@registry/path:tag[@digest]`. */
  lemma RegistryMatchOf(user: string, password: string, registry: string,
                        path: string, tag: string, digest: Option<string>)
    requires |user| > 0 && ':' !in user
    requires |password| > 0 && '@' !in password
    requires |registry| > 0 && '/' !in registry
    requires |path| > 0 && ':' !in path && '\n' !in path
    requires |tag| > 0 && '@' !in tag && ValidDigest(digest)
    ensures var tail := tag + DigestSuffix(digest);
      MatchRegistry(user + (":" + (password + ("@" + (registry + ("/" + (path + (":" + tail))))))))
        == Some(RegistryMatch(user, password, registry, path, tail))
  {
    var tail := tag + DigestSuffix(digest);
    var r3 := path + (":" + tail);
    var r2 := registry + ("/" + r3);
    var r1 := password + ("@" + r2);
    SplitAtOf(user, ':', r1);
    SplitAtOf(password, '@', r2);
    SplitAtOf(registry, '/', r3);
    TagDigestOf(tag, digest);
    LazyImagePathOf(path, tail, 1);
  }

  lemma RegistryRef(registry: string, path: string, tag: string, digest: Option<string>)
    requires |tag| > 0 && '@' !in tag && ValidDigest(digest)
    ensures var tail := tag + DigestSuffix(digest);
      TagDigest(tail).Some?
      && RefOfTail(registry + ("/" + path), tail) == registry + ("/" + (path + (":" + tail)))
  {
    TailRef(registry + ("/" + path), tag, digest);
  }

  /** A well-formed tail is rebuilt unchanged. */
  lemma TailRef(image: string, tag: string, digest: Option<string>)
    requires |tag| > 0 && '@' !in tag && ValidDigest(digest)
    ensures var tail := tag + DigestSuffix(digest);
      TagDigest(tail).Some? && RefOfTail(image, tail) == image + (":" + tail)
  {
    TagDigestOf(tag, digest);
  }

  lemma ResolveRegistry(name: string, rest: string, m: RegistryMatch)
    requires MatchPinned(rest).None? && MatchRegistry(rest) == Some(m)
    ensures Resolve(name, rest) == Some(FunctionRef(name, Some(m.user), Some(m.password),
                                        RefOfTail(m.registry + ("/" + m.path), m.tail), "", true))
  {
  }

  lemma ResolveLegacy(name: string, rest: string, m: LegacyMatch)
    requires MatchPinned(rest).None? && MatchRegistry(rest).None? && MatchLegacy(rest) == Some(m)
    ensures Resolve(name, rest) == Some(FunctionRef(name, Some(m.user), Some(m.password),
                                        RefOfTail(m.image, m.tail), "", true))
  {
  }

  lemma ResolvePlain(name: string, rest: string, m: PlainMatch)
    requires MatchPinned(rest).None? && MatchRegistry(rest).None? && MatchLegacy(rest).None?
    requires MatchPlain(rest) == Some(m)
    ensures Resolve(name, rest) == Some(FunctionRef(name, None, None, RefOfTail(m.image, m.tail), "", true))
  {
  }

  /** The form-3 reading of `user:password/image:tail`. */
  lemma LegacyMatchOf(user: string, password: string, image: string, tail: string)
    requires |user| > 0 && ':' !in user
    requires |password| > 0 && '/' !in password
    requires |image| > 0 && ':' !in image
    requires TagDigest(tail).Some?
    ensures MatchLegacy(user + (":" + (password + ("/" + (image + (":" + tail))))))
      == Some(LegacyMatch(user, password, image, tail))
  {
    SplitAtOf(user, ':', password + ("/" + (image + (":" + tail))));
    SplitAtOf(password, '/', image + (":" + tail));
    SplitAtOf(image, ':', tail);
  }

  /** Form 3 reads back its pieces: the reference is `image:tag[@digest]`. */
  lemma LegacyForm(name: string, user: string, password: string, image: string,
                   tag: string, digest: Option<string>)
    requires |name| > 0 && ':' !in name
    requires |user| > 0 && ':' !in user
    requires |password| > 0 && '/' !in password && '@' !in password
    requires |image| > 0 && ':' !in image && '@' !in image
    requires |tag| > 0 && '@' !in tag && ValidDigest(digest)
    ensures var tail := tag + DigestSuffix(digest);
      var rest := user + (":" + (password + ("/" + (image + (":" + tail)))));
      ParseFn(name + ("::" + rest))
        == Ok(FunctionRef(name, Some(user), Some(password), image + (":" + tail), "", true))
  {
    var tail := tag + DigestSuffix(digest);
    var rest := user + (":" + (password + ("/" + (image + (":" + tail)))));
    PinnedRejectsColon(rest, |user|);
    LegacyNotRegistry(user, password, image, tag, digest);
    TailRef(image, tag, digest);
    LegacyMatchOf(user, password, image, tail);
    ResolveLegacy(name, rest, LegacyMatch(user, password, image, tail));
    ParseOf(name, rest);
  }

  /** Form 2 needs a `/` after the first `@`, and in a form-3 text only a
      digest holds an `@`. */
  lemma LegacyNotRegistry(user: string, password: string, image: string,
                          tag: string, digest: Option<string>)
    requires |user| > 0 && ':' !in user
    requires '/' !in password && '@' !in password
    requires '@' !in image && '@' !in tag && ValidDigest(digest)
    ensures var tail := tag + DigestSuffix(digest);
      MatchRegistry(user + (":" + (password + ("/" + (image + (":" + tail)))))).None?
  {
    var r1 := password + ("/" + (image + (":" + (tag + DigestSuffix(digest)))));
    SplitAtOf(user, ':', r1);
    var head, after := AtSplit(password, image, tag, digest);
    RegistryRejects(user + (":" + r1), user, r1, head, after);
  }

  /** Where the text after the user of a form-3 text splits at its first `@`. */
  lemma AtSplit(password: string, image: string, tag: string, digest: Option<string>)
      returns (head: string, after: string)
    requires '/' !in password && '@' !in password
    requires '@' !in image && '@' !in tag && ValidDigest(digest)
    ensures var r1 := password + ("/" + (image + (":" + (tag + DigestSuffix(digest)))));
      '@' !in r1 || (SplitAt(r1, '@') == Some((head, after)) && '/' !in after)
  {
    var r1 := password + ("/" + (image + (":" + (tag + DigestSuffix(digest)))));
    DigestChars(digest);
    if digest.Some? {
      head, after := password + ("/" + (image + (":" + tag))), digest.value;
      assert r1 == head + (['@'] + after);
      SplitAtOf(head, '@', after);
    } else {
      head, after := "", "";
      assert '@' !in r1;
    }
  }

  /** Form 2 fails when the text after the user holds no `@`, or no `/`
      after its first `@`. */
  lemma RegistryRejects(rest: string, user: string, r1: string, head: string, after: string)
    requires SplitAt(rest, ':') == Some((user, r1))
    requires '@' !in r1 || (SplitAt(r1, '@') == Some((head, after)) && '/' !in after)
    ensures MatchRegistry(rest).None?
  {
  }

  /** Form 4 reads back its pieces, without credentials. */
  lemma PlainForm(name: string, image: string, tag: string, digest: Option<string>)
    requires |name| > 0 && ':' !in name
    requires |image| > 0 && ':' !in image
    requires |tag| > 0 && '@' !in tag && '/' !in tag && ValidDigest(digest)
    ensures var tail := tag + DigestSuffix(digest);
      ParseFn(name + ("::" + (image + (":" + tail))))
        == Ok(FunctionRef(name, None, None, image + (":" + tail), "", true))
  {
    var tail := tag + DigestSuffix(digest);
    var rest := image + (":" + tail);
    PinnedRejectsColon(rest, |image|);
    PlainNotCredentials(image, tag, digest);
    TailRef(image, tag, digest);
    SplitAtOf(image, ':', tail);
    ResolvePlain(name, rest, PlainMatch(image, tail));
    ParseOf(name, rest);
  }

  /** A form-4 text whose tag holds no `/` matches neither form 2 nor form 3. */
  lemma PlainNotCredentials(image: string, tag: string, digest: Option<string>)
    requires |image| > 0 && ':' !in image
    requires |tag| > 0 && '@' !in tag && '/' !in tag && ValidDigest(digest)
    ensures var tail := tag + DigestSuffix(digest);
      MatchRegistry(image + (":" + tail)).None? && MatchLegacy(image + (":" + tail)).None?
  {
    var tail := tag + DigestSuffix(digest);
    SplitAtOf(image, ':', tail);
    DigestChars(digest);
    if digest.Some? {
      assert tail == tag + (['@'] + digest.value);
      SplitAtOf(tag, '@', digest.value);
    }
    assert '/' !in tail;
  }

  /** First match wins, form 2 before form 3: a form-2 text whose password
      and registry hold no `/` also reads as form 3 (password
      `password@registry`, image `path`), yet the form-2 reading is returned. */
  lemma RegistryBeforeLegacy(name: string, user: string, password: string, registry: string,
                             path: string, tag: string)
    requires |name| > 0 && ':' !in name
    requires |user| > 0 && ':' !in user
    requires |password| > 0 && '@' !in password && '/' !in password
    requires |registry| > 0 && '/' !in registry
    requires |path| > 0 && ':' !in path && '\n' !in path
    requires |tag| > 0 && '@' !in tag
    ensures var rest := user + (":" + (password + ("@" + (registry + ("/" + (path + (":" + tag)))))));
      && MatchLegacy(rest) == Some(LegacyMatch(user, password + ("@" + registry), path, tag))
      && ParseFn(name + ("::" + rest)).Ok?
      && ParseFn(name + ("::" + rest)).value.ref == registry + ("/" + (path + (":" + tag)))
  {
    assert tag + DigestSuffix(None) == tag;
    RegistryForm(name, user, password, registry, path, tag, None);
    RegistryAlsoLegacy(user, password, registry, path, tag);
  }

  lemma RegistryAlsoLegacy(user: string, password: string, registry: string, path: string, tag: string)
    requires |user| > 0 && ':' !in user
    requires |password| > 0 && '@' !in password && '/' !in password
    requires |registry| > 0 && '/' !in registry
    requires |path| > 0 && ':' !in path
    requires |tag| > 0 && '@' !in tag
    ensures MatchLegacy(user + (":" + (password + ("@" + (registry + ("/" + (path + (":" + tag))))))))
      == Some(LegacyMatch(user, password + ("@" + registry), path, tag))
  {
    TagDigestOf(tag, None);
    assert tag + DigestSuffix(None) == tag;
    assert password + ("@" + (registry + ("/" + (path + (":" + tag)))))
        == (password + ("@" + registry)) + ("/" + (path + (":" + tag)));
    LegacyMatchOf(user, password + ("@" + registry), path, tag);
  }

  /** First match wins, form 3 before form 4: `user:password/image:tag` also
      reads as form 4 (image `user`, tag `password/image:tag`), yet the
      credentials of the form-3 reading are returned. */
  lemma LegacyBeforePlain(name: string, user: string, password: string, image: string, tag: string)
    requires |name| > 0 && ':' !in name
    requires |user| > 0 && ':' !in user
    requires |password| > 0 && '/' !in password && '@' !in password
    requires |image| > 0 && ':' !in image && '@' !in image
    requires |tag| > 0 && '@' !in tag
    ensures var rest := user + (":" + (password + ("/" + (image + (":" + tag)))));
      && MatchPlain(rest) == Some(PlainMatch(user, password + ("/" + (image + (":" + tag)))))
      && ParseFn(name + ("::" + rest)).Ok?
      && ParseFn(name + ("::" + rest)).value.user == Some(user)
  {
    LegacyForm(name, user, password, image, tag, None);
    assert tag + DigestSuffix(None) == tag;
    var tail := password + ("/" + (image + (":" + tag)));
    SplitAtOf(user, ':', tail);
    TagDigestOf(tail, None);
    assert tail + DigestSuffix(None) == tail;
  }

  /** Python's `uuid.uuid4().hex`: 32 lower-case hex digits. */
  predicate IsUuidHex(u: string) {
    |u| == 32 && AllInClass(u, false)
  }

  /** `getid(prefix)`, with the fresh uuid passed in. */
  function GetId(prefix: string, uuid: string): (r: string)
    requires IsUuidHex(uuid)
    ensures |r| == |prefix| + 33
    ensures r[..|prefix| + 1] == prefix + "_"
    ensures IsUuidHex(r[|prefix| + 1..])
  {
    var r := prefix + "_" + uuid;
    assert r[|prefix| + 1..] == uuid;
    r
  }

  /** Fresh uuids give fresh ids: `getid` keeps the uuid recoverable. */
  lemma GetIdInjective(prefix: string, u1: string, u2: string)
    requires IsUuidHex(u1) && IsUuidHex(u2)
    requires GetId(prefix, u1) == GetId(prefix, u2)
    ensures u1 == u2
  {
    assert u1 == GetId(prefix, u1)[|prefix| + 1..];
    assert u2 == GetId(prefix, u2)[|prefix| + 1..];
  }
}
