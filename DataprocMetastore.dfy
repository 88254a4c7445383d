/**
 * Request building of the Google Cloud Dataproc Metastore hook: the hierarchical
 * resource names each call addresses, and the metadata query that lists Hive partitions.
 *
 * The metastore client, the long-running operations it returns and logging stay
 * outside; each hook method is modelled by the request it hands to the client.
 */
module DataprocMetastore {
  import opened Wrappers

  /** A metastore message passed as a dictionary (a Backup, MetadataImport or Service). */
  type Resource = map<string, string>

  // ---------------------------------------------------------------------------------
  // Resource names

  /** An id that is a single path segment. */
  predicate NoSlash(id: string) {
    '/' !in id
  }

  function LocationName(projectId: string, region: string): string {
    "projects/" + projectId + "/locations/" + region
  }

  function ServiceName(projectId: string, region: string, serviceId: string): string {
    "projects/" + projectId + "/locations/" + region + "/services/" + serviceId
  }

  function BackupName(projectId: string, region: string, serviceId: string, backupId: string): string {
    "projects/" + projectId + "/locations/" + region + "/services/" + serviceId + "/backups/" + backupId
  }

  function BackupsParent(projectId: string, region: string, serviceId: string): string {
    "projects/" + projectId + "/locations/" + region + "/services/" + serviceId + "/backups"
  }

  /** A backup's name, and the parent used to list backups, extend the service's name. */
  lemma BackupNamesExtendServiceName(projectId: string, region: string, serviceId: string, backupId: string)
    ensures BackupName(projectId, region, serviceId, backupId) == ServiceName(projectId, region, serviceId) + "/backups/" + backupId
    ensures BackupsParent(projectId, region, serviceId) == ServiceName(projectId, region, serviceId) + "/backups"
    ensures ServiceName(projectId, region, serviceId) == LocationName(projectId, region) + "/services/" + serviceId
  {
  }

  /** A resource a name addresses, read back from its path segments. */
  datatype ResourceName =
    | Location(project: string, region: string)
    | Service(project: string, region: string, service: string)
    | BackupCollection(project: string, region: string, service: string)
    | Backup(project: string, region: string, service: string, backup: string)

  /** The position of the first `c` in `s`, or |s| when there is none. */
  function IndexOf(s: string, c: char): (i: nat)
    ensures i <= |s|
    ensures i < |s| ==> s[i] == c
    ensures forall j :: 0 <= j < i ==> s[j] != c
    decreases |s|
  {
    if s == [] then 0
    else if s[0] == c then 0
    else 1 + IndexOf(s[1..], c)
  }

  lemma {:induction false} IndexOfAfter(p: string, c: char, t: string)
    requires c !in p
    ensures IndexOf(p + [c] + t, c) == |p|
    decreases |p|
  {
    if p != [] {
      assert (p + [c] + t)[1..] == p[1..] + [c] + t;
      IndexOfAfter(p[1..], c, t);
    }
  }

  /** Splits a name at every '/'. */
  function SplitPath(s: string): (r: seq<string>)
    ensures |r| >= 1
    decreases |s|
  {
    var i := IndexOf(s, '/');
    if i == |s| then [s] else [s[..i]] + SplitPath(s[i + 1..])
  }

  /** Joins segments with '/'. */
  function JoinPath(segments: seq<string>): string
    requires |segments| >= 1
    decreases |segments|
  {
    if |segments| == 1 then segments[0] else segments[0] + "/" + JoinPath(segments[1..])
  }

  /** Splitting a slash-free segment gives that segment alone. */
  lemma SplitOne(head: string)
    requires NoSlash(head)
    ensures SplitPath(head) == [head]
  {
    assert IndexOf(head, '/') == |head|;
  }

  /** Splitting a slash-free segment followed by '/' peels that segment off. */
  lemma SplitCons(head: string, rest: string)
    requires NoSlash(head)
    ensures SplitPath(head + "/" + rest) == [head] + SplitPath(rest)
  {
    var s := head + "/" + rest;
    IndexOfAfter(head, '/', rest);
    assert s[..|head|] == head;
    assert s[|head| + 1..] == rest;
  }

  /** Splitting a joined path gives back its segments, as long as none contains '/'. */
  lemma {:induction false} SplitJoin(segments: seq<string>)
    requires |segments| >= 1
    requires forall k :: 0 <= k < |segments| ==> NoSlash(segments[k])
    ensures SplitPath(JoinPath(segments)) == segments
    decreases |segments|
  {
    if |segments| == 1 {
      SplitOne(segments[0]);
    } else {
      var rest := segments[1..];
      assert JoinPath(segments) == segments[0] + "/" + JoinPath(rest);
      SplitCons(segments[0], JoinPath(rest));
      SplitJoin(rest);
      assert [segments[0]] + rest == segments;
    }
  }

  lemma JoinCons(head: string, tail: seq<string>)
    requires |tail| >= 1
    ensures JoinPath([head] + tail) == head + "/" + JoinPath(tail)
  {
    assert ([head] + tail)[1..] == tail;
  }

  /** Reads back the segments of a name, when they have one of the four shapes. */
  function ParseSegments(s: seq<string>): Option<ResourceName> {
    if |s| == 4 && s[0] == "projects" && s[2] == "locations" then
      Some(Location(s[1], s[3]))
    else if |s| == 6 && s[0] == "projects" && s[2] == "locations" && s[4] == "services" then
      Some(Service(s[1], s[3], s[5]))
    else if |s| == 7 && s[0] == "projects" && s[2] == "locations" && s[4] == "services" && s[6] == "backups" then
      Some(BackupCollection(s[1], s[3], s[5]))
    else if |s| == 8 && s[0] == "projects" && s[2] == "locations" && s[4] == "services" && s[6] == "backups" then
      Some(Backup(s[1], s[3], s[5], s[7]))
    else
      None
  }

  /** Reads a name back: the resource it addresses, when it is one of the four shapes. */
  function ParseResourceName(name: string): Option<ResourceName> {
    ParseSegments(SplitPath(name))
  }

  /** A name joined from slash-free segments is read back from those segments. */
  lemma ParseJoin(segments: seq<string>)
    requires |segments| >= 1
    requires forall k :: 0 <= k < |segments| ==> NoSlash(segments[k])
    ensures ParseResourceName(JoinPath(segments)) == ParseSegments(segments)
  {
    SplitJoin(segments);
  }

  /** The segments of the names, outermost first. */
  function LocationSegments(projectId: string, region: string): seq<string> {
    ["projects", projectId, "locations", region]
  }

  function ServiceSegments(projectId: string, region: string, serviceId: string): seq<string> {
    LocationSegments(projectId, region) + ["services", serviceId]
  }

  function BackupsSegments(projectId: string, region: string, serviceId: string): seq<string> {
    ServiceSegments(projectId, region, serviceId) + ["backups"]
  }

  function BackupSegments(projectId: string, region: string, serviceId: string, backupId: string): seq<string> {
    BackupsSegments(projectId, region, serviceId) + [backupId]
  }

  /** Joining two non-empty lists of segments is joining their joins. */
  lemma {:induction false} JoinAppend(a: seq<string>, b: seq<string>)
    requires |a| >= 1 && |b| >= 1
    ensures JoinPath(a + b) == JoinPath(a) + "/" + JoinPath(b)
    decreases |a|
  {
    if |a| == 1 {
      JoinCons(a[0], b);
    } else {
      assert (a + b)[1..] == a[1..] + b;
      JoinAppend(a[1..], b);
    }
  }

  /** `x + "/" + y + "/" + z` regrouped as `x + "/" + (y + "/" + z)`. */
  lemma Regroup(x: string, y: string, z: string)
    ensures x + "/" + y + "/" + z == x + "/" + (y + "/" + z)
  {
  }

  lemma LocationNameIsJoin(projectId: string, region: string)
    ensures LocationName(projectId, region) == JoinPath(LocationSegments(projectId, region))
  {
    JoinCons("locations", [region]);
    JoinCons(projectId, ["locations", region]);
    JoinCons("projects", [projectId, "locations", region]);
    var name := LocationName(projectId, region);
    var spelled := "projects" + "/" + (projectId + "/" + ("locations" + "/" + region));
    assert |name| == |spelled|;
    forall k | 0 <= k < |name| ensures name[k] == spelled[k] {
    }
  }

  lemma ServiceNameIsJoin(projectId: string, region: string, serviceId: string)
    ensures ServiceName(projectId, region, serviceId) == JoinPath(ServiceSegments(projectId, region, serviceId))
  {
    var location := LocationName(projectId, region);
    LocationNameIsJoin(projectId, region);
    JoinCons("services", [serviceId]);
    JoinAppend(LocationSegments(projectId, region), ["services", serviceId]);
    assert ServiceName(projectId, region, serviceId) == location + "/services/" + serviceId;
    Regroup(location, "services", serviceId);
  }

  lemma BackupsParentIsJoin(projectId: string, region: string, serviceId: string)
    ensures BackupsParent(projectId, region, serviceId) == JoinPath(BackupsSegments(projectId, region, serviceId))
  {
    ServiceNameIsJoin(projectId, region, serviceId);
    JoinAppend(ServiceSegments(projectId, region, serviceId), ["backups"]);
    BackupNamesExtendServiceName(projectId, region, serviceId, "");
  }

  lemma BackupNameIsJoin(projectId: string, region: string, serviceId: string, backupId: string)
    ensures BackupName(projectId, region, serviceId, backupId) == JoinPath(BackupSegments(projectId, region, serviceId, backupId))
  {
    var service := ServiceName(projectId, region, serviceId);
    ServiceNameIsJoin(projectId, region, serviceId);
    JoinCons("backups", [backupId]);
    var seq1 := ServiceSegments(projectId, region, serviceId);
    assert BackupSegments(projectId, region, serviceId, backupId) == seq1 + ["backups", backupId];
    JoinAppend(seq1, ["backups", backupId]);
    BackupNamesExtendServiceName(projectId, region, serviceId, backupId);
    Regroup(service, "backups", backupId);
  }

  lemma LocationNameRoundTrip(projectId: string, region: string)
    requires NoSlash(projectId) && NoSlash(region)
    ensures ParseResourceName(LocationName(projectId, region)) == Some(Location(projectId, region))
  {
    LocationNameIsJoin(projectId, region);
    ParseJoin(LocationSegments(projectId, region));
  }

  /** Service names are read back into the ids they were built from. */
  lemma ServiceNameRoundTrip(projectId: string, region: string, serviceId: string)
    requires NoSlash(projectId) && NoSlash(region) && NoSlash(serviceId)
    ensures ParseResourceName(ServiceName(projectId, region, serviceId)) == Some(Service(projectId, region, serviceId))
  {
    var segments := ServiceSegments(projectId, region, serviceId);
    ServiceNameIsJoin(projectId, region, serviceId);
    assert segments == ["projects", projectId, "locations", region, "services", serviceId];
    ParseJoin(segments);
  }

  lemma BackupsParentRoundTrip(projectId: string, region: string, serviceId: string)
    requires NoSlash(projectId) && NoSlash(region) && NoSlash(serviceId)
    ensures ParseResourceName(BackupsParent(projectId, region, serviceId)) == Some(BackupCollection(projectId, region, serviceId))
  {
    var segments := BackupsSegments(projectId, region, serviceId);
    BackupsParentIsJoin(projectId, region, serviceId);
    assert segments == ["projects", projectId, "locations", region, "services", serviceId, "backups"];
    ParseJoin(segments);
  }

  lemma BackupNameRoundTrip(projectId: string, region: string, serviceId: string, backupId: string)
    requires NoSlash(projectId) && NoSlash(region) && NoSlash(serviceId) && NoSlash(backupId)
    ensures ParseResourceName(BackupName(projectId, region, serviceId, backupId)) == Some(Backup(projectId, region, serviceId, backupId))
  {
    var segments := BackupSegments(projectId, region, serviceId, backupId);
    BackupNameIsJoin(projectId, region, serviceId, backupId);
    assert segments == ["projects", projectId, "locations", region, "services", serviceId, "backups", backupId];
    ParseJoin(segments);
  }

  /** Distinct single-segment ids give distinct backup names: a name identifies its backup. */
  lemma BackupNamesInjective(p: string, r: string, s: string, b: string, p': string, r': string, s': string, b': string)
    requires NoSlash(p) && NoSlash(r) && NoSlash(s) && NoSlash(b)
    requires NoSlash(p') && NoSlash(r') && NoSlash(s') && NoSlash(b')
    requires BackupName(p, r, s, b) == BackupName(p', r', s', b')
    ensures p == p' && r == r' && s == s' && b == b'
  {
    BackupNameRoundTrip(p, r, s, b);
    BackupNameRoundTrip(p', r', s', b');
  }

  // ---------------------------------------------------------------------------------
  // Requests of the hook methods

  /** The request a hook method hands to the metastore client. */
  datatype Request =
    | CreateBackupRequest(parent: string, backupMessage: Resource, backupId: string, requestId: Option<string>)
    | CreateMetadataImportRequest(parent: string, metadataImport: Resource, metadataImportId: string, requestId: Option<string>)
    | CreateServiceRequest(parent: string, serviceId: string, serviceMessage: Resource, requestId: Option<string>)
    | DeleteBackupRequest(name: string, requestId: Option<string>)
    | DeleteServiceRequest(name: string, requestId: Option<string>)
    | ExportMetadataRequest(destinationGcsFolder: string, service: string, requestId: Option<string>, databaseDumpType: Option<string>)
    | GetServiceRequest(name: string)
    | GetBackupRequest(name: string)
    | ListBackupsRequest(parent: string, pageSize: Option<int>, pageToken: Option<string>, filter: Option<string>, orderBy: Option<string>)
    | RestoreServiceRequest(service: string, backup: string, restoreType: Option<string>, requestId: Option<string>)
    | QueryMetadataRequest(service: string, query: string)

  /** create_backup: a new backup under the service. */
  function CreateBackup(projectId: string, region: string, serviceId: string, backup: Resource, backupId: string, requestId: Option<string>)
    : (r: Request)
    ensures r.CreateBackupRequest? && r.backupMessage == backup && r.backupId == backupId && r.requestId == requestId
    ensures NoSlash(projectId) && NoSlash(region) && NoSlash(serviceId) ==>
      ParseResourceName(r.parent) == Some(Service(projectId, region, serviceId))
  {
    if NoSlash(projectId) && NoSlash(region) && NoSlash(serviceId) then
      ServiceNameRoundTrip(projectId, region, serviceId);
      CreateBackupRequest(ServiceName(projectId, region, serviceId), backup, backupId, requestId)
    else
      CreateBackupRequest(ServiceName(projectId, region, serviceId), backup, backupId, requestId)
  }

  /** create_metadata_import: a new metadata import under the service. */
  function CreateMetadataImport(projectId: string, region: string, serviceId: string, metadataImport: Resource,
                                metadataImportId: string, requestId: Option<string>): (r: Request)
    ensures r.CreateMetadataImportRequest? && r.metadataImport == metadataImport
    ensures r.metadataImportId == metadataImportId && r.requestId == requestId
    ensures NoSlash(projectId) && NoSlash(region) && NoSlash(serviceId) ==>
      ParseResourceName(r.parent) == Some(Service(projectId, region, serviceId))
  {
    if NoSlash(projectId) && NoSlash(region) && NoSlash(serviceId) then
      ServiceNameRoundTrip(projectId, region, serviceId);
      CreateMetadataImportRequest(ServiceName(projectId, region, serviceId), metadataImport, metadataImportId, requestId)
    else
      CreateMetadataImportRequest(ServiceName(projectId, region, serviceId), metadataImport, metadataImportId, requestId)
  }

  /**
   * create_service: the parent is the location, with no services segment; a missing or
   * empty service message is sent as the empty dictionary.
   */
  function CreateService(region: string, projectId: string, service: Option<Resource>, serviceId: string, requestId: Option<string>)
    : (r: Request)
    ensures r.CreateServiceRequest? && r.serviceId == serviceId && r.requestId == requestId
    ensures service.None? ==> r.serviceMessage == map[]
    ensures service.Some? ==> r.serviceMessage == service.value
    ensures NoSlash(projectId) && NoSlash(region) ==> ParseResourceName(r.parent) == Some(Location(projectId, region))
  {
    var body := if service.Some? && service.value != map[] then service.value else map[];
    if NoSlash(projectId) && NoSlash(region) then
      LocationNameRoundTrip(projectId, region);
      CreateServiceRequest(LocationName(projectId, region), serviceId, body, requestId)
    else
      CreateServiceRequest(LocationName(projectId, region), serviceId, body, requestId)
  }

  /** delete_backup: the backup's full name. */
  function DeleteBackup(projectId: string, region: string, serviceId: string, backupId: string, requestId: Option<string>)
    : (r: Request)
    ensures r.DeleteBackupRequest? && r.requestId == requestId
    ensures NoSlash(projectId) && NoSlash(region) && NoSlash(serviceId) && NoSlash(backupId) ==>
      ParseResourceName(r.name) == Some(Backup(projectId, region, serviceId, backupId))
  {
    if NoSlash(projectId) && NoSlash(region) && NoSlash(serviceId) && NoSlash(backupId) then
      BackupNameRoundTrip(projectId, region, serviceId, backupId);
      DeleteBackupRequest(BackupName(projectId, region, serviceId, backupId), requestId)
    else
      DeleteBackupRequest(BackupName(projectId, region, serviceId, backupId), requestId)
  }

  /** delete_service: the service's name. */
  function DeleteService(projectId: string, region: string, serviceId: string, requestId: Option<string>): (r: Request)
    ensures r.DeleteServiceRequest? && r.requestId == requestId
    ensures NoSlash(projectId) && NoSlash(region) && NoSlash(serviceId) ==>
      ParseResourceName(r.name) == Some(Service(projectId, region, serviceId))
  {
    if NoSlash(projectId) && NoSlash(region) && NoSlash(serviceId) then
      ServiceNameRoundTrip(projectId, region, serviceId);
      DeleteServiceRequest(ServiceName(projectId, region, serviceId), requestId)
    else
      DeleteServiceRequest(ServiceName(projectId, region, serviceId), requestId)
  }

  /** export_metadata: the service is addressed by its name. */
  function ExportMetadata(destinationGcsFolder: string, projectId: string, region: string, serviceId: string,
                          requestId: Option<string>, databaseDumpType: Option<string>): (r: Request)
    ensures r.ExportMetadataRequest? && r.destinationGcsFolder == destinationGcsFolder
    ensures r.requestId == requestId && r.databaseDumpType == databaseDumpType
    ensures NoSlash(projectId) && NoSlash(region) && NoSlash(serviceId) ==>
      ParseResourceName(r.service) == Some(Service(projectId, region, serviceId))
  {
    if NoSlash(projectId) && NoSlash(region) && NoSlash(serviceId) then
      ServiceNameRoundTrip(projectId, region, serviceId);
      ExportMetadataRequest(destinationGcsFolder, ServiceName(projectId, region, serviceId), requestId, databaseDumpType)
    else
      ExportMetadataRequest(destinationGcsFolder, ServiceName(projectId, region, serviceId), requestId, databaseDumpType)
  }

  /** get_service: the service's name. */
  function GetService(projectId: string, region: string, serviceId: string): (r: Request)
    ensures r.GetServiceRequest?
    ensures NoSlash(projectId) && NoSlash(region) && NoSlash(serviceId) ==>
      ParseResourceName(r.name) == Some(Service(projectId, region, serviceId))
  {
    if NoSlash(projectId) && NoSlash(region) && NoSlash(serviceId) then
      ServiceNameRoundTrip(projectId, region, serviceId);
      GetServiceRequest(ServiceName(projectId, region, serviceId))
    else
      GetServiceRequest(ServiceName(projectId, region, serviceId))
  }

  /** get_backup: the backup's full name. */
  function GetBackup(projectId: string, region: string, serviceId: string, backupId: string): (r: Request)
    ensures r.GetBackupRequest?
    ensures NoSlash(projectId) && NoSlash(region) && NoSlash(serviceId) && NoSlash(backupId) ==>
      ParseResourceName(r.name) == Some(Backup(projectId, region, serviceId, backupId))
  {
    if NoSlash(projectId) && NoSlash(region) && NoSlash(serviceId) && NoSlash(backupId) then
      BackupNameRoundTrip(projectId, region, serviceId, backupId);
      GetBackupRequest(BackupName(projectId, region, serviceId, backupId))
    else
      GetBackupRequest(BackupName(projectId, region, serviceId, backupId))
  }

  /** list_backups: the parent is the service's backup collection. */
  function ListBackups(projectId: string, region: string, serviceId: string, pageSize: Option<int>,
                       pageToken: Option<string>, filter: Option<string>, orderBy: Option<string>): (r: Request)
    ensures r.ListBackupsRequest? && r.pageSize == pageSize && r.pageToken == pageToken
    ensures r.filter == filter && r.orderBy == orderBy
    ensures NoSlash(projectId) && NoSlash(region) && NoSlash(serviceId) ==>
      ParseResourceName(r.parent) == Some(BackupCollection(projectId, region, serviceId))
  {
    if NoSlash(projectId) && NoSlash(region) && NoSlash(serviceId) then
      BackupsParentRoundTrip(projectId, region, serviceId);
      ListBackupsRequest(BackupsParent(projectId, region, serviceId), pageSize, pageToken, filter, orderBy)
    else
      ListBackupsRequest(BackupsParent(projectId, region, serviceId), pageSize, pageToken, filter, orderBy)
  }

  /**
   * restore_service: the service to restore and the backup to restore from are named
   * from independent project, region and service ids.
   */
  function RestoreService(projectId: string, region: string, serviceId: string, backupProjectId: string,
                          backupRegion: string, backupServiceId: string, backupId: string,
                          restoreType: Option<string>, requestId: Option<string>): (r: Request)
    ensures r.RestoreServiceRequest? && r.restoreType == restoreType && r.requestId == requestId
    ensures NoSlash(projectId) && NoSlash(region) && NoSlash(serviceId) ==>
      ParseResourceName(r.service) == Some(Service(projectId, region, serviceId))
    ensures NoSlash(backupProjectId) && NoSlash(backupRegion) && NoSlash(backupServiceId) && NoSlash(backupId) ==>
      ParseResourceName(r.backup) == Some(Backup(backupProjectId, backupRegion, backupServiceId, backupId))
  {
    var service := ServiceName(projectId, region, serviceId);
    var backup := BackupName(backupProjectId, backupRegion, backupServiceId, backupId);
    if NoSlash(projectId) && NoSlash(region) && NoSlash(serviceId) then
      ServiceNameRoundTrip(projectId, region, serviceId);
      if NoSlash(backupProjectId) && NoSlash(backupRegion) && NoSlash(backupServiceId) && NoSlash(backupId) then
        BackupNameRoundTrip(backupProjectId, backupRegion, backupServiceId, backupId);
        RestoreServiceRequest(service, backup, restoreType, requestId)
      else
        RestoreServiceRequest(service, backup, restoreType, requestId)
    else if NoSlash(backupProjectId) && NoSlash(backupRegion) && NoSlash(backupServiceId) && NoSlash(backupId) then
      BackupNameRoundTrip(backupProjectId, backupRegion, backupServiceId, backupId);
      RestoreServiceRequest(service, backup, restoreType, requestId)
    else
      RestoreServiceRequest(service, backup, restoreType, requestId)
  }

  /** The caller's service dictionary, which update_service changes in place. */
  class ServiceDict {
    var entries: map<string, string>

    constructor (entries: map<string, string>)
      ensures this.entries == entries
    {
      this.entries := entries;
    }
  }

  /** The update request: it carries the caller's own (updated) dictionary. */
  datatype UpdateServiceRequest = UpdateServiceRequest(service: ServiceDict, updateMask: seq<string>, requestId: Option<string>)

  /**
   * update_service: sets the "name" of the caller's service dictionary to the service's
   * name and leaves every other key as it was.
   */
  method UpdateService(projectId: string, region: string, serviceId: string, service: ServiceDict,
                       updateMask: seq<string>, requestId: Option<string>) returns (r: UpdateServiceRequest)
    modifies service
    ensures service.entries == old(service.entries)["name" := ServiceName(projectId, region, serviceId)]
    ensures service.entries.Keys == old(service.entries).Keys + {"name"}
    ensures forall k :: k in old(service.entries) && k != "name" ==> service.entries[k] == old(service.entries)[k]
    ensures r.service == service && r.updateMask == updateMask && r.requestId == requestId
    ensures NoSlash(projectId) && NoSlash(region) && NoSlash(serviceId) ==>
      ParseResourceName(service.entries["name"]) == Some(Service(projectId, region, serviceId))
  {
    var serviceName := ServiceName(projectId, region, serviceId);
    service.entries := service.entries["name" := serviceName];
    if NoSlash(projectId) && NoSlash(region) && NoSlash(serviceId) {
      ServiceNameRoundTrip(projectId, region, serviceId);
    }
    r := UpdateServiceRequest(service, updateMask, requestId);
  }

  // ---------------------------------------------------------------------------------
  // Hive partitions

  /** dict.fromkeys: each name once, at the place of its first occurrence. */
  function Dedup(names: seq<string>): seq<string>
    decreases |names|
  {
    if names == [] then []
    else
      var init := names[..|names| - 1];
      var last := names[|names| - 1];
      if last in init then Dedup(init) else Dedup(init) + [last]
  }

  predicate Distinct(s: seq<string>) {
    forall i, j :: 0 <= i < j < |s| ==> s[i] != s[j]
  }

  /** The index of the first occurrence of `x` in `s`. */
  function FirstIndex(s: seq<string>, x: string): (i: nat)
    requires x in s
    ensures i < |s| && s[i] == x
    ensures forall j :: 0 <= j < i ==> s[j] != x
  {
    if s[0] == x then 0 else 1 + FirstIndex(s[1..], x)
  }

  /** De-duplication keeps exactly the names of the input. */
  lemma {:induction false} DedupSameElements(names: seq<string>)
    ensures forall x :: x in Dedup(names) <==> x in names
    decreases |names|
  {
    if names != [] {
      var init := names[..|names| - 1];
      DedupSameElements(init);
      assert names == init + [names[|names| - 1]];
    }
  }

  /** De-duplication leaves no name twice. */
  lemma {:induction false} DedupDistinct(names: seq<string>)
    ensures Distinct(Dedup(names))
    decreases |names|
  {
    if names != [] {
      var init := names[..|names| - 1];
      DedupDistinct(init);
      DedupSameElements(init);
    }
  }

  /** The first index of a name in a prefix is its first index in the whole sequence. */
  lemma FirstIndexInPrefix(init: seq<string>, last: string, x: string)
    requires x in init
    ensures x in init + [last] && FirstIndex(init + [last], x) == FirstIndex(init, x)
  {
    var s := init + [last];
    var i := FirstIndex(init, x);
    var k := FirstIndex(s, x);
    assert s[i] == x;
    assert k <= i;
    assert init[k] == x;
  }

  /** Every name of `d` occurs in `names`, and `d` lists them by their first index in `names`. */
  predicate InFirstOccurrenceOrder(d: seq<string>, names: seq<string>) {
    && (forall k :: 0 <= k < |d| ==> d[k] in names)
    && (forall i, j :: 0 <= i < j < |d| ==> FirstIndex(names, d[i]) < FirstIndex(names, d[j]))
  }

  /** Appending a name to `names` keeps the first indices of the names already there. */
  lemma FirstOrderExtend(d: seq<string>, init: seq<string>, last: string)
    requires InFirstOccurrenceOrder(d, init)
    ensures InFirstOccurrenceOrder(d, init + [last])
  {
    forall k | 0 <= k < |d|
      ensures d[k] in init + [last] && FirstIndex(init + [last], d[k]) == FirstIndex(init, d[k])
    {
      FirstIndexInPrefix(init, last, d[k]);
    }
  }

  /** A name new to `init` comes after every name of `init`. */
  lemma FirstOrderAppendNew(d: seq<string>, init: seq<string>, last: string)
    requires last !in init
    requires forall x :: x in d ==> x in init
    requires InFirstOccurrenceOrder(d, init + [last])
    ensures InFirstOccurrenceOrder(d + [last], init + [last])
  {
    var names := init + [last];
    var e := d + [last];
    assert FirstIndex(names, last) == |names| - 1;
    forall k | 0 <= k < |d|
      ensures e[k] == d[k] && FirstIndex(names, d[k]) < |names| - 1
    {
      FirstIndexInPrefix(init, last, d[k]);
    }
  }

  /** De-duplication keeps first-occurrence order. */
  lemma {:induction false} DedupFirstOccurrenceOrder(names: seq<string>)
    ensures InFirstOccurrenceOrder(Dedup(names), names)
    decreases |names|
  {
    if names != [] {
      var init := names[..|names| - 1];
      var last := names[|names| - 1];
      assert names == init + [last];
      DedupFirstOccurrenceOrder(init);
      FirstOrderExtend(Dedup(init), init, last);
      if last !in init {
        DedupSameElements(init);
        FirstOrderAppendNew(Dedup(init), init, last);
      }
    }
  }

  /** A sequence that already has no duplicates is left unchanged. */
  lemma {:induction false} DedupOfDistinct(names: seq<string>)
    requires Distinct(names)
    ensures Dedup(names) == names
    decreases |names|
  {
    if names != [] {
      var init := names[..|names| - 1];
      assert Distinct(init);
      DedupOfDistinct(init);
      assert names == init + [names[|names| - 1]];
    }
  }

  /** De-duplicating twice is the same as de-duplicating once. */
  lemma DedupIdempotent(names: seq<string>)
    ensures Dedup(Dedup(names)) == Dedup(names)
  {
    DedupDistinct(names);
    DedupOfDistinct(Dedup(names));
  }

  /** The partitions the query asks for: none for a missing or empty list, else the de-duplicated list. */
  function QueryPartitions(partitionNames: Option<seq<string>>): seq<string> {
    if partitionNames.Some? && partitionNames.value != [] then Dedup(partitionNames.value) else []
  }

  lemma QueryPartitionsEmpty(partitionNames: Option<seq<string>>)
    ensures QueryPartitions(partitionNames) == [] <==> (partitionNames.None? || partitionNames.value == [])
  {
    if partitionNames.Some? && partitionNames.value != [] {
      DedupSameElements(partitionNames.value);
      assert partitionNames.value[0] in Dedup(partitionNames.value);
    }
  }

  function Quote(p: string): string {
    "'" + p + "'"
  }

  /** ", ".join of the single-quoted names. */
  function QuotedList(partitions: seq<string>): string
    decreases |partitions|
  {
    if partitions == [] then ""
    else if |partitions| == 1 then Quote(partitions[0])
    else Quote(partitions[0]) + ", " + QuotedList(partitions[1..])
  }

  /** Reads one single-quoted name off the front of `s`, with what follows it. */
  function ReadQuoted(s: string): (r: Option<(string, string)>)
    ensures r.Some? ==> |r.value.1| < |s|
  {
    if |s| < 2 || s[0] != '\'' then None
    else
      var k := IndexOf(s[1..], '\'');
      if k == |s| - 1 then None else Some((s[1..k + 1], s[k + 2..]))
  }

  lemma ReadQuotedOf(p: string, tail: string)
    requires NoQuote(p)
    ensures ReadQuoted(Quote(p) + tail) == Some((p, tail))
  {
    var s := Quote(p) + tail;
    assert s[1..] == p + ['\''] + tail;
    IndexOfAfter(p, '\'', tail);
    assert s[1..|p| + 1] == p;
    assert s[|p| + 2..] == tail;
  }

  /** Reads a list written as 'a', 'b', ... back into its names. */
  function ParseQuotedList(s: string): Option<seq<string>>
    decreases |s|
  {
    match ReadQuoted(s)
    case None => None
    case Some((name, rest)) =>
      if rest == [] then Some([name])
      else if |rest| >= 2 && rest[..2] == ", " then
        match ParseQuotedList(rest[2..])
        case None => None
        case Some(names) => Some([name] + names)
      else None
  }

  predicate NoQuote(p: string) {
    '\'' !in p
  }

  /** A single quoted name reads back into that name. */
  lemma ParseQuotedOne(p: string)
    requires NoQuote(p)
    ensures ParseQuotedList(Quote(p)) == Some([p])
  {
    ReadQuotedOf(p, "");
    assert Quote(p) + "" == Quote(p);
  }

  /** A quoted name, a comma and a readable list read back into the name followed by the list. */
  lemma ParseQuotedCons(p: string, rest: string)
    requires NoQuote(p)
    requires ParseQuotedList(rest).Some?
    ensures ParseQuotedList(Quote(p) + ", " + rest) == Some([p] + ParseQuotedList(rest).value)
  {
    var tail := ", " + rest;
    ReadQuotedOf(p, tail);
    assert Quote(p) + ", " + rest == Quote(p) + tail;
    assert tail[..2] == ", ";
    assert tail[2..] == rest;
  }

  /** The quoted list reads back into the partitions it was built from, while no name holds a quote. */
  lemma {:induction false} QuotedListRoundTrip(partitions: seq<string>)
    requires partitions != []
    requires forall k :: 0 <= k < |partitions| ==> NoQuote(partitions[k])
    ensures ParseQuotedList(QuotedList(partitions)) == Some(partitions)
    decreases |partitions|
  {
    var p := partitions[0];
    if |partitions| == 1 {
      ParseQuotedOne(p);
      assert partitions == [p];
    } else {
      var others := partitions[1..];
      assert forall k :: 0 <= k < |others| ==> NoQuote(others[k]) by {
        forall k | 0 <= k < |others| ensures NoQuote(others[k]) {
          assert others[k] == partitions[k + 1];
        }
      }
      QuotedListRoundTrip(others);
      ParseQuotedCons(p, QuotedList(others));
      assert QuotedList(partitions) == Quote(p) + ", " + QuotedList(others);
      assert [p] + others == partitions;
    }
  }

  const QUERY_HEAD: string :=
    "\n    SELECT PARTITIONS.*, TBLS.TBL_TYPE, TBLS.TBL_NAME\n    FROM PARTITIONS\n    INNER JOIN TBLS ON PARTITIONS.TBL_ID = TBLS.TBL_ID\n    WHERE TBLS.TBL_NAME = '"

  const PARTITION_CLAUSE_HEAD: string := "\n        AND PARTITIONS.PART_NAME IN ("

  /** The select over partitions of one table, up to the closing quote of the table filter. */
  function TableFilter(table: string): string {
    QUERY_HEAD + table + "'"
  }

  /** The partition query: the table filter, then a PART_NAME IN clause when there are partitions. */
  function HivePartitionsQuery(table: string, partitions: seq<string>): string {
    if partitions != [] then
      TableFilter(table) + PARTITION_CLAUSE_HEAD + QuotedList(partitions) + ");"
    else
      TableFilter(table) + ";"
  }

  /**
   * With partitions, the query is the table filter followed by a PART_NAME IN clause whose
   * list reads back into the partitions, in order; without, it is the table filter alone.
   */
  lemma HivePartitionsQueryShape(table: string, partitions: seq<string>)
    requires forall k :: 0 <= k < |partitions| ==> NoQuote(partitions[k])
    ensures partitions == [] ==> HivePartitionsQuery(table, partitions) == TableFilter(table) + ";"
    ensures partitions != [] ==> exists list ::
      HivePartitionsQuery(table, partitions) == TableFilter(table) + PARTITION_CLAUSE_HEAD + list + ");" &&
      ParseQuotedList(list) == Some(partitions)
  {
    if partitions != [] {
      QuotedListRoundTrip(partitions);
      var list := QuotedList(partitions);
      assert HivePartitionsQuery(table, partitions) == TableFilter(table) + PARTITION_CLAUSE_HEAD + list + ");";
    }
  }

  /**
   * list_hive_partitions: the query-metadata request for the service, asking for each
   * requested partition once, in first-occurrence order.
   */
  function ListHivePartitions(projectId: string, serviceId: string, region: string, table: string,
                              partitionNames: Option<seq<string>>): (r: Request)
    ensures r.QueryMetadataRequest?
    ensures r.query == HivePartitionsQuery(table, QueryPartitions(partitionNames))
    ensures NoSlash(projectId) && NoSlash(region) && NoSlash(serviceId) ==>
      ParseResourceName(r.service) == Some(Service(projectId, region, serviceId))
  {
    var query := HivePartitionsQuery(table, QueryPartitions(partitionNames));
    if NoSlash(projectId) && NoSlash(region) && NoSlash(serviceId) then
      ServiceNameRoundTrip(projectId, region, serviceId);
      QueryMetadataRequest(ServiceName(projectId, region, serviceId), query)
    else
      QueryMetadataRequest(ServiceName(projectId, region, serviceId), query)
  }

  /**
   * The PART_NAME IN list of list_hive_partitions reads back into the de-duplicated
   * requested names, which hold no name twice (DedupSameElements and
   * DedupFirstOccurrenceOrder give the names kept and their order).
   */
  lemma {:induction false} ListHivePartitionsNamesEachPartitionOnce(projectId: string, serviceId: string, region: string, table: string,
                                                  partitionNames: seq<string>)
    requires partitionNames != []
    requires forall k :: 0 <= k < |partitionNames| ==> NoQuote(partitionNames[k])
    ensures ListHivePartitions(projectId, serviceId, region, table, Some(partitionNames)).query ==
            TableFilter(table) + PARTITION_CLAUSE_HEAD + QuotedList(Dedup(partitionNames)) + ");"
    ensures ParseQuotedList(QuotedList(Dedup(partitionNames))) == Some(Dedup(partitionNames))
    ensures Distinct(Dedup(partitionNames))
  {
    DedupDistinct(partitionNames);
    ListHivePartitionsQuery(projectId, serviceId, region, table, partitionNames);
    DedupKeepsNoQuote(partitionNames);
    QuotedListRoundTrip(Dedup(partitionNames));
  }

  /** With a non-empty list, the query filters on the de-duplicated names, quoted and comma-separated. */
  lemma ListHivePartitionsQuery(projectId: string, serviceId: string, region: string, table: string,
                                partitionNames: seq<string>)
    requires partitionNames != []
    ensures ListHivePartitions(projectId, serviceId, region, table, Some(partitionNames)).query ==
            TableFilter(table) + PARTITION_CLAUSE_HEAD + QuotedList(Dedup(partitionNames)) + ");"
  {
  }

  /** De-duplicating a non-empty list of quote-free names gives a non-empty list of quote-free names. */
  lemma DedupKeepsNoQuote(names: seq<string>)
    requires names != []
    requires forall k :: 0 <= k < |names| ==> NoQuote(names[k])
    ensures Dedup(names) != []
    ensures forall k :: 0 <= k < |Dedup(names)| ==> NoQuote(Dedup(names)[k])
  {
    var ps := Dedup(names);
    DedupSameElements(names);
    forall k | 0 <= k < |ps| ensures NoQuote(ps[k]) {
      assert ps[k] in names;
    }
    assert names[0] in ps;
  }
}
