/** The identifiers of volumes and snapshots: printing, parsing, and conversion from appliance hrefs. */
module Identifiers {
  import opened Common

  const SEPARATOR := '/'

  // Numbers of components, counting the empty one before a leading separator.
  const VOLUME_MIN_COMPONENTS := 2
  const VOLUME_ID_LEN := 6
  const VOLUME_HANDLE_LEN := 8
  const SNAPSHOT_ID_LEN := 7
  const VOLUME_HREF_LEN := 10
  const SNAPSHOT_HREF_LEN := 12

  const BLOCK_VOLUME := "lun"
  const MOUNT_VOLUME := "mnt"

  const RESOURCE_NAME_LENGTH := 64

  datatype IdError = NotFound | InvalidArgument

  datatype VolumeId = VolumeId(kind: string, zfssa: string, pool: string, project: string, name: string)

  datatype SnapshotId = SnapshotId(volume: VolumeId, name: string)

  // ---- Splitting and joining ----

  function Split(s: string): (parts: seq<string>)
    ensures |parts| >= 1
  {
    if s == "" then [""]
    else
      var rest := Split(s[1..]);
      if s[0] == SEPARATOR then [""] + rest else [[s[0]] + rest[0]] + rest[1..]
  }

  function Join(parts: seq<string>): string
    requires |parts| >= 1
  {
    if |parts| == 1 then parts[0] else parts[0] + [SEPARATOR] + Join(parts[1..])
  }

  lemma JoinMore(first: string, rest: seq<string>)
    requires |rest| >= 1
    ensures Join([first] + rest) == Path(first, Join(rest))
  {
    assert ([first] + rest)[1..] == rest;
  }

  // The format "%v/%v", nested to print longer paths.
  function Path(first: string, rest: string): string { first + [SEPARATOR] + rest }

  predicate SlashFree(s: string) { SEPARATOR !in s }

  predicate AllSlashFree(parts: seq<string>) { forall p <- parts :: SlashFree(p) }

  /** The components of a string contain no separator. */
  lemma {:induction false} SplitSlashFree(s: string)
    ensures AllSlashFree(Split(s))
  {
    if s != "" {
      SplitSlashFree(s[1..]);
      var rest := Split(s[1..]);
      assert SlashFree(rest[0]);
      forall p | p in Split(s) ensures SlashFree(p) {
        assert p == "" || p in rest || (s[0] != SEPARATOR && p == [s[0]] + rest[0]);
      }
    }
  }

  lemma {:induction false} SplitPrefix(p: string, s: string)
    requires SlashFree(p)
    ensures Split(p + [SEPARATOR] + s) == [p] + Split(s)
  {
    var whole := p + [SEPARATOR] + s;
    if p == "" {
      assert whole == [SEPARATOR] + s && whole[1..] == s;
    } else {
      assert whole[1..] == p[1..] + [SEPARATOR] + s;
      SplitPrefix(p[1..], s);
      assert [p[0]] + p[1..] == p;
    }
  }

  lemma {:induction false} SplitOne(p: string)
    requires SlashFree(p)
    ensures Split(p) == [p]
  {
    if p != "" {
      SplitOne(p[1..]);
      assert [p[0]] + p[1..] == p;
    }
  }

  /** Joining undoes splitting. */
  lemma {:induction false} JoinSplit(s: string)
    ensures Join(Split(s)) == s
  {
    if s != "" {
      var rest := Split(s[1..]);
      JoinSplit(s[1..]);
      if s[0] == SEPARATOR {
        JoinMore("", rest);
      } else if |rest| > 1 {
        assert rest == [rest[0]] + rest[1..];
        JoinMore(rest[0], rest[1..]);
        JoinMore([s[0]] + rest[0], rest[1..]);
      }
    }
  }

  /** Splitting undoes joining, for components without separators. */
  lemma {:induction false} SplitJoin(parts: seq<string>)
    requires |parts| >= 1 && AllSlashFree(parts)
    ensures Split(Join(parts)) == parts
  {
    if |parts| == 1 {
      SplitOne(parts[0]);
    } else {
      assert forall p | p in parts[1..] :: p in parts;
      SplitJoin(parts[1..]);
      SplitPrefix(parts[0], Join(parts[1..]));
    }
  }

  // ---- Resource names ----

  predicate NameChar(c: char) {
    'a' <= c <= 'z' || 'A' <= c <= 'Z' || '0' <= c <= '9' || c == '_' || c == '-' || c == '.' || c == ':'
  }

  predicate IsResourceNameValid(name: string) {
    |name| <= RESOURCE_NAME_LENGTH && |name| > 0 && forall c <- name :: NameChar(c)
  }

  predicate NamesValid(v: VolumeId) {
    IsResourceNameValid(v.pool) && IsResourceNameValid(v.project) && IsResourceNameValid(v.name)
  }

  // Digits and colon, dash and dot, capitals, underscore, small letters, by their codes.
  predicate NameCode(k: int) { 48 <= k <= 58 || k == 45 || k == 46 || 65 <= k <= 90 || k == 95 || 97 <= k <= 122 }

  /** A resource name is made of 1 to 64 such characters. */
  lemma ValidNamesExactly(name: string)
    ensures IsResourceNameValid(name) <==> 1 <= |name| <= 64 && forall c <- name :: NameCode(c as int)
  {
    assert forall c: char :: NameChar(c) <==> NameCode(c as int);
  }

  lemma ValidIsSlashFree(name: string)
    requires IsResourceNameValid(name)
    ensures SlashFree(name)
  {
    assert !NameChar(SEPARATOR);
  }

  // ---- Volume identifiers ----

  function VolumeParts(v: VolumeId): seq<string> { ["", v.kind, v.zfssa, v.pool, v.project, v.name] }

  function VolumeIdString(v: VolumeId): string {
    Path("", Path(v.kind, Path(v.zfssa, Path(v.pool, Path(v.project, v.name)))))
  }

  predicate LegacyKind(kind: string) { kind == "nfs" || kind == "iscsi" }

  function VolumeIdFromString(id: string): Result<VolumeId, IdError> {
    var result := Split(id);
    if |result| < VOLUME_MIN_COMPONENTS then Err(InvalidArgument)
    else if LegacyKind(result[1]) then
      if |result| < VOLUME_HANDLE_LEN then Err(NotFound)
      else CheckedVolumeId(result[1], result[2], result[4], result[6], result[7])
    else
      if |result| < VOLUME_ID_LEN then Err(NotFound)
      else CheckedVolumeId(result[1], result[2], result[3], result[4], result[5])
  }

  function CheckedVolumeId(kind: string, zfssa: string, pool: string, project: string, share: string)
    : Result<VolumeId, IdError>
  {
    if !IsResourceNameValid(pool) then Err(InvalidArgument)
    else if !IsResourceNameValid(project) then Err(InvalidArgument)
    else if !IsResourceNameValid(share) then Err(InvalidArgument)
    else Ok(VolumeId(kind, zfssa, pool, project, share))
  }

  lemma VolumeStringJoins(v: VolumeId)
    ensures VolumeIdString(v) == Join(VolumeParts(v))
  {
    JoinMore(v.project, [v.name]);
    JoinMore(v.pool, [v.project] + [v.name]);
    JoinMore(v.zfssa, [v.pool] + ([v.project] + [v.name]));
    JoinMore(v.kind, [v.zfssa] + ([v.pool] + ([v.project] + [v.name])));
    JoinMore("", [v.kind] + ([v.zfssa] + ([v.pool] + ([v.project] + [v.name]))));
    assert VolumeParts(v) == [""] + ([v.kind] + ([v.zfssa] + ([v.pool] + ([v.project] + [v.name]))));
  }

  /** The printed form. */
  lemma VolumeFormat(v: VolumeId)
    ensures VolumeIdString(v) == "/" + v.kind + "/" + v.zfssa + "/" + v.pool + "/" + v.project + "/" + v.name
  {
  }

  // "/kind/zfssa/x/pool/y/project/name": the handles of earlier versions.
  function LegacyParts(v: VolumeId, x: string, y: string): seq<string> {
    ["", v.kind, v.zfssa, x, v.pool, y, v.project, v.name]
  }

  /** A handle in a legacy format is parsed exactly when its names are valid, whatever else it holds. */
  lemma LegacyHandle(v: VolumeId, x: string, y: string, more: seq<string>)
    requires v.kind == "nfs" || v.kind == "iscsi"
    requires VolumeSlashFree(v) && SlashFree(x) && SlashFree(y) && AllSlashFree(more)
    ensures VolumeIdFromString(Join(LegacyParts(v, x, y) + more)) ==
              if NamesValid(v) then Ok(v) else Err(InvalidArgument)
  {
    var parts := LegacyParts(v, x, y);
    SplitJoin(parts + more);
    assert (parts + more)[..8] == parts;
  }

  /** A handle with fewer components is not found. */
  lemma ShortHandle(id: string)
    ensures VolumeIdFromString(id) == Err(NotFound) <==>
              && 2 <= |Split(id)| < 8
              && (Split(id)[1] == "nfs" || Split(id)[1] == "iscsi" || |Split(id)| < 6)
  {
  }

  predicate VolumeSlashFree(v: VolumeId) {
    SlashFree(v.kind) && SlashFree(v.zfssa) && SlashFree(v.pool) && SlashFree(v.project) && SlashFree(v.name)
  }

  lemma SplitVolumeString(v: VolumeId)
    requires VolumeSlashFree(v)
    ensures Split(VolumeIdString(v)) == VolumeParts(v)
  {
    VolumeStringJoins(v);
    SplitJoin(VolumeParts(v));
  }

  // A printed identifier that the parser gives back unchanged.
  predicate Reparsable(v: VolumeId) {
    SlashFree(v.kind) && !LegacyKind(v.kind) && SlashFree(v.zfssa) && NamesValid(v)
  }

  /** Parsing a printed volume identifier returns it exactly when its kind and appliance contain no
      separator, its kind is not that of a legacy handle, and its three names are valid. */
  lemma VolumeRoundTrip(v: VolumeId)
    ensures VolumeIdFromString(VolumeIdString(v)) == Ok(v) <==> Reparsable(v)
  {
    if NamesValid(v) {
      ValidIsSlashFree(v.pool);
      ValidIsSlashFree(v.project);
      ValidIsSlashFree(v.name);
    }
    if VolumeSlashFree(v) {
      SplitVolumeString(v);
    } else {
      SplitSlashFree(VolumeIdString(v));
    }
  }

  /** A handle in a legacy format never survives: what it parses to is rejected when printed and parsed again. */
  lemma LegacyHandleIsOneWay(id: string)
    requires VolumeIdFromString(id).Ok? && LegacyKind(Split(id)[1])
    ensures var v := VolumeIdFromString(id).value; VolumeIdFromString(VolumeIdString(v)) == Err(NotFound)
  {
    var v := VolumeIdFromString(id).value;
    SplitSlashFree(id);
    SplitVolumeString(v);
  }

  /** Printing is injective on identifiers whose components contain no separator. */
  lemma VolumeStringInjective(v: VolumeId, w: VolumeId)
    requires VolumeSlashFree(v) && VolumeSlashFree(w) && VolumeIdString(v) == VolumeIdString(w)
    ensures v == w
  {
    SplitVolumeString(v);
    SplitVolumeString(w);
    assert VolumeParts(v)[1..] == VolumeParts(w)[1..];
  }

  // ---- Snapshot identifiers ----

  function SnapshotParts(s: SnapshotId): seq<string> { VolumeParts(s.volume) + [s.name] }

  function SnapshotIdString(s: SnapshotId): string {
    var v := s.volume;
    Path("", Path(v.kind, Path(v.zfssa, Path(v.pool, Path(v.project, Path(v.name, s.name))))))
  }

  function SnapshotIdFromString(id: string): Result<SnapshotId, IdError> {
    var result := Split(id);
    if |result| < SNAPSHOT_ID_LEN then Err(NotFound)
    else Ok(SnapshotId(VolumeId(result[1], result[2], result[3], result[4], result[5]), result[6]))
  }

  lemma SnapshotStringJoins(s: SnapshotId)
    ensures SnapshotIdString(s) == Join(SnapshotParts(s))
  {
    var v := s.volume;
    JoinMore(v.name, [s.name]);
    JoinMore(v.project, [v.name] + [s.name]);
    JoinMore(v.pool, [v.project] + ([v.name] + [s.name]));
    JoinMore(v.zfssa, [v.pool] + ([v.project] + ([v.name] + [s.name])));
    JoinMore(v.kind, [v.zfssa] + ([v.pool] + ([v.project] + ([v.name] + [s.name]))));
    JoinMore("", [v.kind] + ([v.zfssa] + ([v.pool] + ([v.project] + ([v.name] + [s.name])))));
    assert SnapshotParts(s) ==
      [""] + ([v.kind] + ([v.zfssa] + ([v.pool] + ([v.project] + ([v.name] + [s.name])))));
  }

  predicate SnapshotSlashFree(s: SnapshotId) { VolumeSlashFree(s.volume) && SlashFree(s.name) }

  lemma SplitSnapshotString(s: SnapshotId)
    requires SnapshotSlashFree(s)
    ensures Split(SnapshotIdString(s)) == SnapshotParts(s)
  {
    SnapshotStringJoins(s);
    SplitJoin(SnapshotParts(s));
  }

  /** A string is parsed as a snapshot identifier exactly when it has at least seven components, and is
      not found otherwise. */
  lemma SnapshotParsed(id: string)
    ensures SnapshotIdFromString(id).Ok? <==> |Split(id)| >= 7
    ensures !SnapshotIdFromString(id).Ok? ==> SnapshotIdFromString(id) == Err(NotFound)
  {
  }

  /** Parsing a printed snapshot identifier returns it exactly when no component contains a separator. */
  lemma SnapshotRoundTrip(s: SnapshotId)
    ensures SnapshotIdFromString(SnapshotIdString(s)) == Ok(s) <==> SnapshotSlashFree(s)
  {
    if SnapshotSlashFree(s) {
      SplitSnapshotString(s);
    } else {
      SplitSlashFree(SnapshotIdString(s));
    }
  }

  /** Read as a volume identifier, a printed snapshot identifier denotes its source volume. */
  lemma SnapshotStringNamesSource(s: SnapshotId)
    requires Reparsable(s.volume) && SlashFree(s.name)
    ensures VolumeIdFromString(SnapshotIdString(s)) == Ok(s.volume)
  {
    ValidIsSlashFree(s.volume.pool);
    ValidIsSlashFree(s.volume.project);
    ValidIsSlashFree(s.volume.name);
    SplitSnapshotString(s);
  }

  // ---- Hrefs of the appliance ----

  function KindFromHref(component: string): Option<string> {
    if component == "filesystems" then Some(MOUNT_VOLUME)
    else if component == "luns" then Some(BLOCK_VOLUME)
    else None
  }

  function VolumeIdStringFromHref(zfssa: string, href: string): Result<string, IdError> {
    var result := Split(href);
    if |result| < VOLUME_HREF_LEN then Err(NotFound)
    else
      match KindFromHref(result[8])
      case None => Err(NotFound)
      case Some(kind) => Ok(Path("", Path(kind, Path(zfssa, Path(result[5], Path(result[7], result[9]))))))
  }

  function SnapshotIdFromHref(zfssa: string, href: string): Result<SnapshotId, IdError> {
    var result := Split(href);
    if |result| < SNAPSHOT_HREF_LEN then Err(NotFound)
    else if result[10] != "snapshots" then Err(NotFound)
    else
      match KindFromHref(result[8])
      case None => Err(NotFound)
      case Some(kind) => Ok(SnapshotId(VolumeId(kind, zfssa, result[5], result[7], result[9]), result[11]))
  }

  function SnapshotIdStringFromHref(zfssa: string, href: string): Result<string, IdError> {
    var result := Split(href);
    if |result| < SNAPSHOT_HREF_LEN then Err(NotFound)
    else if result[10] != "snapshots" then Err(NotFound)
    else
      match KindFromHref(result[8])
      case None => Err(NotFound)
      case Some(kind) =>
        Ok(Path("", Path(kind, Path(zfssa, Path(result[5], Path(result[7], Path(result[9], result[11])))))))
  }

  /** The converters agree on every href: the string converter succeeds exactly when the structured
      one does and prints its result, and the volume converter prints its source volume. */
  lemma HrefConvertersAgree(zfssa: string, href: string)
    ensures match SnapshotIdFromHref(zfssa, href)
            case Ok(s) => SnapshotIdStringFromHref(zfssa, href) == Ok(SnapshotIdString(s))
                          && VolumeIdStringFromHref(zfssa, href) == Ok(VolumeIdString(s.volume))
            case Err(e) => SnapshotIdStringFromHref(zfssa, href) == Err(e)
  {
  }

  // What the appliance calls the collection of the filesystems and that of the LUNs of a project.
  predicate Collection(kind: string, collection: string) {
    (kind == "mnt" && collection == "filesystems") || (kind == "lun" && collection == "luns")
  }

  // "/api/storage/v1/pools/pool/projects/project/collection/name"
  function VolumeHref(v: VolumeId, collection: string): seq<string> {
    ["", "api", "storage", "v1", "pools", v.pool, "projects", v.project, collection, v.name]
  }

  function SnapshotHref(s: SnapshotId, collection: string): seq<string> {
    VolumeHref(s.volume, collection) + ["snapshots", s.name]
  }

  // Components 5, 7 and 9 of an href are those of the volume, and component 8 tells its kind.
  predicate VolumeForm(parts: seq<string>, v: VolumeId) {
    && |parts| >= 10 && AllSlashFree(parts)
    && parts[5] == v.pool && parts[7] == v.project && parts[9] == v.name && Collection(v.kind, parts[8])
  }

  predicate SnapshotForm(parts: seq<string>, s: SnapshotId) {
    |parts| >= 12 && VolumeForm(parts, s.volume) && parts[10] == "snapshots" && parts[11] == s.name
  }

  /** The href of a filesystem or a LUN gives its identifier, and so does every href of that form. */
  lemma VolumeHrefConverts(v: VolumeId, parts: seq<string>)
    requires VolumeForm(parts, v)
    ensures VolumeIdStringFromHref(v.zfssa, Join(parts)) == Ok(VolumeIdString(v))
  {
    SplitJoin(parts);
  }

  lemma SnapshotHrefConverts(s: SnapshotId, parts: seq<string>)
    requires SnapshotForm(parts, s)
    ensures SnapshotIdFromHref(s.volume.zfssa, Join(parts)) == Ok(s)
  {
    SplitJoin(parts);
  }

  /** The hrefs that the appliance uses for its filesystems, LUNs and their snapshots are of that form. */
  lemma ApplianceHrefs(s: SnapshotId, collection: string)
    requires Collection(s.volume.kind, collection) && SlashFree(s.volume.pool) && SlashFree(s.volume.project)
    requires SlashFree(s.volume.name) && SlashFree(s.name)
    ensures VolumeIdStringFromHref(s.volume.zfssa, Join(VolumeHref(s.volume, collection))) ==
              Ok(VolumeIdString(s.volume))
    ensures SnapshotIdFromHref(s.volume.zfssa, Join(SnapshotHref(s, collection))) == Ok(s)
    ensures SnapshotIdStringFromHref(s.volume.zfssa, Join(SnapshotHref(s, collection))) == Ok(SnapshotIdString(s))
  {
    VolumeHrefConverts(s.volume, VolumeHref(s.volume, collection));
    SnapshotHrefConverts(s, SnapshotHref(s, collection));
    HrefConvertersAgree(s.volume.zfssa, Join(SnapshotHref(s, collection)));
  }

  /** An href converts exactly when it is of that form: the volume converter succeeds exactly on hrefs of
      volumes, and the snapshot converters exactly on hrefs of snapshots. */
  lemma HrefsExactly(zfssa: string, href: string)
    ensures VolumeIdStringFromHref(zfssa, href).Ok? <==>
              exists v: VolumeId, parts :: VolumeForm(parts, v) && v.zfssa == zfssa && Join(parts) == href
    ensures SnapshotIdFromHref(zfssa, href).Ok? <==>
              exists s: SnapshotId, parts :: SnapshotForm(parts, s) && s.volume.zfssa == zfssa && Join(parts) == href
  {
    var parts := Split(href);
    SplitSlashFree(href);
    JoinSplit(href);
    if VolumeIdStringFromHref(zfssa, href).Ok? {
      var v := VolumeId(if parts[8] == "luns" then "lun" else "mnt", zfssa, parts[5], parts[7], parts[9]);
      assert VolumeForm(parts, v);
    }
    if SnapshotIdFromHref(zfssa, href).Ok? {
      assert SnapshotForm(parts, SnapshotIdFromHref(zfssa, href).value);
    }
    forall v: VolumeId, ps | VolumeForm(ps, v) && v.zfssa == zfssa && Join(ps) == href
      ensures VolumeIdStringFromHref(zfssa, href).Ok?
    {
      VolumeHrefConverts(v, ps);
    }
    forall s: SnapshotId, ps | SnapshotForm(ps, s) && s.volume.zfssa == zfssa && Join(ps) == href
      ensures SnapshotIdFromHref(zfssa, href).Ok?
    {
      SnapshotHrefConverts(s, ps);
    }
  }

  /** What an href converts to survives printing and parsing exactly when the appliance's name
      contains no separator. */
  lemma HrefRoundTrip(zfssa: string, href: string)
    requires SnapshotIdFromHref(zfssa, href).Ok?
    ensures var s := SnapshotIdFromHref(zfssa, href).value;
            SnapshotIdFromString(SnapshotIdString(s)) == Ok(s) <==> SlashFree(zfssa)
  {
    SplitSlashFree(href);
    SnapshotRoundTrip(SnapshotIdFromHref(zfssa, href).value);
  }
}
