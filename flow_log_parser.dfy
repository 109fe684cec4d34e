/** The flow-log transformer: unwrap the Pub/Sub CloudEvent, take the VPC
    Flow Log record out of the Cloud Logging LogEntry, pick the device it
    belongs to, flatten its metadata, and lay it out for either LogicMonitor
    endpoint. Every dict the source builds by successive assignment is a map
    here; only the webhook formatter, which loops, is a method. */
module FlowLogParser {
  import opened Runtime
  import opened JsonValues
  import Text
  import Base64

  /** The connection 5-tuple fields. */
  const ConnectionKeys: seq<string> := ["src_ip", "dest_ip", "src_port", "dest_port", "protocol"]

  /** Traffic counters copied into the ingest metadata. */
  const MetadataTrafficKeys: seq<string> := ["bytes_sent", "packets_sent", "reporter"]

  /** Traffic fields lifted to the top of the webhook payload. */
  const WebhookTrafficKeys: seq<string> :=
    ["bytes_sent", "packets_sent", "reporter", "start_time", "end_time", "rtt_msec"]

  /** Nested blocks the webhook payload keeps as they are. */
  const NestedKeys: seq<string> :=
    [ "connection", "src_instance", "dest_instance", "src_vpc", "dest_vpc",
      "src_gke_details", "dest_gke_details", "src_location", "dest_location",
      "src_google_service", "dest_google_service" ]

  /** `j.get(key)` one level down, None when `j` is not an object. */
  function Field(j: Json, key: string): Json
  {
    if j.JObj? then GetOrNull(j.fields, key) else JNull
  }

  /** `parse_pubsub_message`: `data`, then `data.message`, then
      `message.data` must be truthy, in that order; the last is base64 text
      of the JSON LogEntry. A truthy `data` or `message` that is not a dict
      makes the next `.get` raise AttributeError. */
  function ParsePubsubMessage(event: Obj, codec: JsonCodec): (r: Result<Json>)
    ensures var data := GetOrNull(event, "data");
            var message := Field(data, "message");
            var encoded := Field(message, "data");
      && (r == Err(ValueError(MissingData)) <==> !Truthy(data))
      && (r == Err(AttributeError) <==>
            Truthy(data) && (!data.JObj? || (Truthy(message) && !message.JObj?)))
      && (r == Err(ValueError(MissingMessage)) <==> Truthy(data) && data.JObj? && !Truthy(message))
      && (r == Err(ValueError(MissingMessageData)) <==>
            Truthy(data) && data.JObj? && Truthy(message) && message.JObj? && !Truthy(encoded))
      && (r == Err(ValueError(Base64Failure)) <==>
            Truthy(data) && data.JObj? && Truthy(message) && message.JObj? && Truthy(encoded)
            && (!encoded.JStr? || Base64.Decode(encoded.s).None?))
      && (r == Err(ValueError(JsonFailure)) <==>
            Truthy(data) && data.JObj? && Truthy(message) && message.JObj?
            && encoded.JStr? && Truthy(encoded) && Base64.Decode(encoded.s).Some?
            && codec.loads(Base64.Decode(encoded.s).value).None?)
      && (r.Ok? <==> Truthy(data) && data.JObj? && Truthy(message) && message.JObj?
                     && encoded.JStr? && Truthy(encoded) && Base64.Decode(encoded.s).Some?
                     && codec.loads(Base64.Decode(encoded.s).value).Some?)
      && (r.Ok? ==> encoded.JStr? && Base64.Decode(encoded.s).Some?
                    && codec.loads(Base64.Decode(encoded.s).value) == Some(r.value))
    ensures r.Err? ==> r.exc.ValueError? || r.exc == AttributeError
  {
    var data := GetOrNull(event, "data");
    if !Truthy(data) then Err(ValueError(MissingData))
    else if !data.JObj? then Err(AttributeError)
    else
      var message := GetOrNull(data.fields, "message");
      if !Truthy(message) then Err(ValueError(MissingMessage))
      else if !message.JObj? then Err(AttributeError)
      else
        var encoded := GetOrNull(message.fields, "data");
        if !Truthy(encoded) then Err(ValueError(MissingMessageData))
        else if !encoded.JStr? then Err(ValueError(Base64Failure))
        else match Base64.Decode(encoded.s)
          case None => Err(ValueError(Base64Failure))
          case Some(bytes) =>
            match codec.loads(bytes)
            case None => Err(ValueError(JsonFailure))
            case Some(entry) => Ok(entry)
  }

  /** `extract_flow_log`: the `jsonPayload` of the LogEntry, unchanged.
      Absent or null is "missing"; present but falsy is "empty". */
  function ExtractFlowLog(entry: Json): (r: Result<Json>)
    ensures !entry.JObj? ==> r == Err(AttributeError)
    ensures entry.JObj? ==>
      && (r == Err(ValueError(MissingPayload)) <==> GetOrNull(entry.fields, "jsonPayload") == JNull)
      && (r == Err(ValueError(EmptyPayload)) <==>
            "jsonPayload" in entry.fields && entry.fields["jsonPayload"] != JNull
            && !Truthy(entry.fields["jsonPayload"]))
      && (r.Ok? <==> "jsonPayload" in entry.fields && Truthy(entry.fields["jsonPayload"]))
      && (r.Ok? ==> r.value == entry.fields["jsonPayload"])
    ensures r.Err? ==> r.exc.ValueError? || r.exc == AttributeError
  {
    if !entry.JObj? then Err(AttributeError)
    else
      var payload := GetOrNull(entry.fields, "jsonPayload");
      if payload == JNull then Err(ValueError(MissingPayload))
      else if !Truthy(payload) then Err(ValueError(EmptyPayload))
      else Ok(payload)
  }

  /** The `vm_name` of an instance block. */
  function VmName(instance: Obj): Json
  {
    GetOrNull(instance, "vm_name")
  }

  function Hostname(vm: Json): (m: Obj)
    ensures m.Keys == {"system.hostname"} && m["system.hostname"] == vm
  {
    map["system.hostname" := vm]
  }

  /** `extract_resource_id`: the source VM's name if truthy, else the
      destination VM's, else None (a deviceless log). The destination block
      is only looked at when the source has no name. */
  function ExtractResourceId(f: Obj): (r: Result<Option<Obj>>)
    ensures var src := Block(f, "src_instance");
            var dest := Block(f, "dest_instance");
      && (src.Ok? && Truthy(VmName(src.value)) ==> r == Ok(Some(Hostname(VmName(src.value)))))
      && (src.Ok? && !Truthy(VmName(src.value)) && dest.Ok? && Truthy(VmName(dest.value)) ==>
            r == Ok(Some(Hostname(VmName(dest.value)))))
      && (r == Ok(None) <==>
            src.Ok? && dest.Ok? && !Truthy(VmName(src.value)) && !Truthy(VmName(dest.value)))
      && (r.Err? <==> src.Err? || (!Truthy(VmName(src.value)) && dest.Err?))
      && (r.Err? ==> r.exc == AttributeError)
  {
    match Block(f, "src_instance")
    case Err(e) => Err(e)
    case Ok(src) =>
      if Truthy(VmName(src)) then Ok(Some(Hostname(VmName(src))))
      else
        match Block(f, "dest_instance")
        case Err(e) => Err(e)
        case Ok(dest) =>
          if Truthy(VmName(dest)) then Ok(Some(Hostname(VmName(dest)))) else Ok(None)
  }

  /** A named source VM wins whatever the destination block holds. */
  lemma SourceVmWins(f: Obj, dest: Json)
    requires Block(f, "src_instance").Ok? && Truthy(VmName(Block(f, "src_instance").value))
    ensures ExtractResourceId(f["dest_instance" := dest]) == ExtractResourceId(f)
    ensures ExtractResourceId(f).Ok? && ExtractResourceId(f).value.Some?
  {
    assert Block(f["dest_instance" := dest], "src_instance") == Block(f, "src_instance");
  }

  /** The `connection` block as the metadata step sees it. */
  function Connection(f: Obj): Json
  {
    GetOr(f, "connection", JObj(map[]))
  }

  /** The connection fields, each `connection.get(key)`, when `connection`
      is truthy; a truthy non-dict raises AttributeError. */
  function ConnectionFields(f: Obj): (r: Result<Obj>)
    ensures r.Ok? <==> !Truthy(Connection(f)) || Connection(f).JObj?
    ensures r.Ok? && Truthy(Connection(f)) ==>
      forall k :: k in r.value <==> k in ConnectionKeys
    ensures r.Ok? && Truthy(Connection(f)) ==>
      forall k :: k in r.value ==> r.value[k] == GetOrNull(Connection(f).fields, k)
    ensures r.Ok? && !Truthy(Connection(f)) ==> r.value == map[]
  {
    var conn := Connection(f);
    if !Truthy(conn) then Ok(map[])
    else if !conn.JObj? then Err(AttributeError)
    else Ok(map k | k in ConnectionKeys :: GetOrNull(conn.fields, k))
  }

  /** `if block.get(from): metadata[to] = block[from]`. */
  function CopyIfTruthy(block: Obj, from: string, to: string): (r: Obj)
    ensures to in r <==> Truthy(GetOrNull(block, from))
    ensures r.Keys <= {to}
    ensures to in r ==> r[to] == block[from]
  {
    if Truthy(GetOrNull(block, from)) then map[to := block[from]] else map[]
  }

  /** Keys the metadata takes from the source instance and source VPC. */
  const SourceKeys: seq<string> := ["vm_name", "project_id", "vpc_name", "subnet_name"]

  /** The VM name and project of the source instance, each only when
      truthy. */
  function InstanceFields(srcInstance: Obj): (r: Obj)
    ensures forall k :: k in r ==> (k == "vm_name" || k == "project_id") && Truthy(r[k])
    ensures "vm_name" in r <==> Truthy(GetOrNull(srcInstance, "vm_name"))
    ensures "vm_name" in r ==> r["vm_name"] == srcInstance["vm_name"]
    ensures "project_id" in r <==> Truthy(GetOrNull(srcInstance, "project_id"))
    ensures "project_id" in r ==> r["project_id"] == srcInstance["project_id"]
  {
    CopyIfTruthy(srcInstance, "vm_name", "vm_name") + CopyIfTruthy(srcInstance, "project_id", "project_id")
  }

  /** The VPC and subnetwork names of the source VPC, each only when
      truthy; the subnetwork is renamed `subnet_name`. */
  function VpcFields(srcVpc: Obj): (r: Obj)
    ensures forall k :: k in r ==> (k == "vpc_name" || k == "subnet_name") && Truthy(r[k])
    ensures "vpc_name" in r <==> Truthy(GetOrNull(srcVpc, "vpc_name"))
    ensures "vpc_name" in r ==> r["vpc_name"] == srcVpc["vpc_name"]
    ensures "subnet_name" in r <==> Truthy(GetOrNull(srcVpc, "subnetwork_name"))
    ensures "subnet_name" in r ==> r["subnet_name"] == srcVpc["subnetwork_name"]
  {
    CopyIfTruthy(srcVpc, "vpc_name", "vpc_name") + CopyIfTruthy(srcVpc, "subnetwork_name", "subnet_name")
  }

  /** The fields taken from the source instance and the source VPC. */
  function SourceFields(srcInstance: Obj, srcVpc: Obj): (r: Obj)
    ensures forall k :: k in r ==> k in SourceKeys && Truthy(r[k])
  {
    InstanceFields(srcInstance) + VpcFields(srcVpc)
  }

  /** The closing comprehension that drops None values. */
  function DropNulls(m: Obj): (r: Obj)
    ensures forall k :: k in r <==> k in m && m[k] != JNull
    ensures forall k :: k in r ==> r[k] == m[k]
  {
    map k | k in m && m[k] != JNull :: m[k]
  }

  /** A key of one of the three metadata groups. */
  predicate IsMetadataKey(k: string)
  {
    k in ConnectionKeys || k in MetadataTrafficKeys || k in SourceKeys
  }

  /** The three groups share no key, and neither "msg" nor "_lm.resourceId"
      is a metadata key. */
  lemma MetadataKeyGroups()
    ensures forall k :: k in ConnectionKeys ==> k !in MetadataTrafficKeys && k !in SourceKeys
    ensures forall k :: k in MetadataTrafficKeys ==> k !in SourceKeys
    ensures !IsMetadataKey("msg") && !IsMetadataKey("_lm.resourceId")
  {
  }

  /** `extract_metadata`: the connection fields, the traffic counters, the
      source instance's VM name and project, and the source VPC's name and
      subnetwork, flattened into one dict without None values. */
  function ExtractMetadata(f: Obj): (r: Result<Obj>)
    ensures r.Ok? <==> ConnectionFields(f).Ok? && Block(f, "src_instance").Ok? && Block(f, "src_vpc").Ok?
    ensures r.Err? ==> r.exc == AttributeError
    ensures r.Ok? ==> forall k :: k in r.value ==> IsMetadataKey(k)
    ensures r.Ok? ==> forall k :: k in r.value ==> r.value[k] != JNull
  {
    match ConnectionFields(f)
    case Err(e) => Err(e)
    case Ok(connection) =>
      match Block(f, "src_instance")
      case Err(e) => Err(e)
      case Ok(srcInstance) =>
        match Block(f, "src_vpc")
        case Err(e) => Err(e)
        case Ok(srcVpc) =>
          Ok(DropNulls(connection + Pick(f, MetadataTrafficKeys) + SourceFields(srcInstance, srcVpc)))
  }

  /** Where each connection field and traffic counter of the metadata comes
      from: it is kept at its source value unless that is null, so a falsy
      value such as port 0 survives. Connection fields are read only when
      `connection` is truthy. */
  lemma MetadataFields(f: Obj)
    requires ExtractMetadata(f).Ok?
    ensures var md := ExtractMetadata(f).value;
            var conn := Connection(f);
      && (forall k :: k in ConnectionKeys ==>
            (k in md <==> Truthy(conn) && conn.JObj? && GetOrNull(conn.fields, k) != JNull))
      && (forall k :: k in ConnectionKeys && k in md ==> conn.JObj? && md[k] == conn.fields[k])
      && (forall k :: k in MetadataTrafficKeys ==> (k in md <==> k in f && f[k] != JNull))
      && (forall k :: k in MetadataTrafficKeys && k in md ==> md[k] == f[k])
  {
    var conn := Connection(f);
    var connection := ConnectionFields(f).value;
    var traffic := Pick(f, MetadataTrafficKeys);
    var source := SourceFields(Block(f, "src_instance").value, Block(f, "src_vpc").value);
    var union := connection + traffic + source;
    var md := ExtractMetadata(f).value;
    assert md == DropNulls(union);
    MetadataKeyGroups();
    forall k | k in ConnectionKeys
      ensures k in md <==> Truthy(conn) && conn.JObj? && GetOrNull(conn.fields, k) != JNull
      ensures k in md ==> conn.JObj? && md[k] == conn.fields[k]
    {
      assert k !in traffic && k !in source;
      assert k in union <==> k in connection;
    }
    forall k | k in MetadataTrafficKeys
      ensures k in md <==> k in f && f[k] != JNull
      ensures k in md ==> md[k] == f[k]
    {
      assert k !in source && k !in connection;
      assert k in union <==> k in traffic;
    }
  }

  /** The VM name and project in the metadata come from the source
      instance only, and only when truthy. */
  lemma MetadataInstanceFields(f: Obj)
    requires ExtractMetadata(f).Ok?
    ensures var md := ExtractMetadata(f).value;
            var si := Block(f, "src_instance").value;
      && ("vm_name" in md <==> Truthy(GetOrNull(si, "vm_name")))
      && ("vm_name" in md ==> md["vm_name"] == si["vm_name"])
      && ("project_id" in md <==> Truthy(GetOrNull(si, "project_id")))
      && ("project_id" in md ==> md["project_id"] == si["project_id"])
  {
    var si := Block(f, "src_instance").value;
    var sv := Block(f, "src_vpc").value;
    MetadataSourceKey(f, "vm_name");
    MetadataSourceKey(f, "project_id");
    assert "vm_name" !in VpcFields(sv) && "project_id" !in VpcFields(sv);
  }

  /** The VPC and subnet names in the metadata come from the source VPC
      only, and only when truthy; `subnetwork_name` is renamed. */
  lemma MetadataVpcFields(f: Obj)
    requires ExtractMetadata(f).Ok?
    ensures var md := ExtractMetadata(f).value;
            var sv := Block(f, "src_vpc").value;
      && ("vpc_name" in md <==> Truthy(GetOrNull(sv, "vpc_name")))
      && ("vpc_name" in md ==> md["vpc_name"] == sv["vpc_name"])
      && ("subnet_name" in md <==> Truthy(GetOrNull(sv, "subnetwork_name")))
      && ("subnet_name" in md ==> md["subnet_name"] == sv["subnetwork_name"])
  {
    var si := Block(f, "src_instance").value;
    var sv := Block(f, "src_vpc").value;
    MetadataSourceKey(f, "vpc_name");
    MetadataSourceKey(f, "subnet_name");
    assert "vpc_name" !in InstanceFields(si) && "subnet_name" !in InstanceFields(si);
  }

  /** A source-side key is in the metadata exactly as in `SourceFields`. */
  lemma MetadataSourceKey(f: Obj, k: string)
    requires ExtractMetadata(f).Ok? && k in SourceKeys
    ensures var md := ExtractMetadata(f).value;
            var source := SourceFields(Block(f, "src_instance").value, Block(f, "src_vpc").value);
      && (k in md <==> k in source)
      && (k in md ==> md[k] == source[k])
  {
    var head := ConnectionFields(f).value + Pick(f, MetadataTrafficKeys);
    var source := SourceFields(Block(f, "src_instance").value, Block(f, "src_vpc").value);
    assert ExtractMetadata(f).value == DropNulls(head + source);
    MetadataKeyGroups();
    assert k !in head;
  }

  /** Only the source-side blocks are read: replacing any key outside
      connection, the three counters, src_instance and src_vpc (every dest_*
      block among them) leaves the metadata as it was. */
  lemma MetadataIgnoresOtherKeys(f: Obj, key: string, value: Json)
    requires key !in {"connection", "bytes_sent", "packets_sent", "reporter", "src_instance", "src_vpc"}
    ensures ExtractMetadata(f[key := value]) == ExtractMetadata(f)
  {
    var g := f[key := value];
    assert Connection(g) == Connection(f);
    assert Block(g, "src_instance") == Block(f, "src_instance");
    assert Block(g, "src_vpc") == Block(f, "src_vpc");
    assert Pick(g, MetadataTrafficKeys) == Pick(f, MetadataTrafficKeys);
  }

  /** The resource id and the metadata name the same VM when the source
      instance has one. */
  lemma ResourceIdMatchesMetadata(f: Obj)
    requires ExtractResourceId(f).Ok? && ExtractMetadata(f).Ok?
    requires Truthy(VmName(Block(f, "src_instance").value))
    ensures ExtractResourceId(f).value == Some(Hostname(ExtractMetadata(f).value["vm_name"]))
  {
    MetadataInstanceFields(f);
  }

  /** Python's `str()` of a JSON value inside an f-string. */
  function Render(j: Json, codec: JsonCodec): (s: string)
    ensures j == JNull ==> s == "None"
    ensures j.JBool? ==> s == (if j.b then "True" else "False")
    ensures j.JStr? ==> s == j.s
    ensures j.JInt? && j.i >= 0 ==> Text.AllDigits(s) && Text.DecimalToNat(s) == j.i
    ensures j.JInt? && j.i < 0 ==>
      |s| >= 2 && s[0] == '-' && Text.AllDigits(s[1..]) && Text.DecimalToNat(s[1..]) == -j.i
  {
    match j
    case JNull => "None"
    case JBool(b) => if b then "True" else "False"
    case JInt(i) =>
      Text.DecimalRoundTrip(if i >= 0 then i else -i);
      Text.IntToDecimal(i)
    case JStr(s) => s
    case _ => codec.containerStr(j)
  }

  /** `conn.get(key, "?")` rendered. */
  function Show(d: Obj, key: string, codec: JsonCodec): string
  {
    Render(GetOr(d, key, JStr("?")), codec)
  }

  /** The summary line once the connection block is known to be a dict. */
  function SummaryLine(f: Obj, conn: Obj, codec: JsonCodec): (line: string)
    ensures |line| >= 10 && line[..10] == "VPC Flow: "
  {
    "VPC Flow: " + SummaryFields(f, conn, codec)
  }

  /** The six rendered fields after the prefix. */
  function SummaryFields(f: Obj, conn: Obj, codec: JsonCodec): string
  {
    Show(conn, "src_ip", codec) + ":" + Show(conn, "src_port", codec)
      + " -> " + Show(conn, "dest_ip", codec) + ":" + Show(conn, "dest_port", codec)
      + " proto=" + Show(conn, "protocol", codec) + " bytes=" + Show(f, "bytes_sent", codec)
  }

  /** `_build_summary`; a `connection` that is not a dict raises. */
  function BuildSummary(f: Obj, codec: JsonCodec): (r: Result<string>)
    ensures r.Ok? <==> Block(f, "connection").Ok?
    ensures r.Err? ==> r.exc == AttributeError
    ensures r.Ok? ==> |r.value| >= 10 && r.value[..10] == "VPC Flow: "
  {
    match Block(f, "connection")
    case Err(e) => Err(e)
    case Ok(conn) => Ok(SummaryLine(f, conn, codec))
  }

  /** With no connection block and no byte count every field reads "?". */
  lemma SummaryOfEmptyFlow(f: Obj, codec: JsonCodec)
    requires "connection" !in f && "bytes_sent" !in f
    ensures BuildSummary(f, codec) ==
              Ok("VPC Flow: " + ("?" + ":" + "?" + " -> " + "?" + ":" + "?" + " proto=" + "?" + " bytes=" + "?"))
  {
  }

  /** The summary depends on the connection block and the byte count only. */
  lemma SummaryReadsSixFields(f: Obj, g: Obj, codec: JsonCodec)
    requires Block(f, "connection") == Block(g, "connection")
    requires GetOr(f, "bytes_sent", JStr("?")) == GetOr(g, "bytes_sent", JStr("?"))
    ensures BuildSummary(f, codec) == BuildSummary(g, codec)
  {
  }

  /** `str()` of the port and byte numbers in the example below. */
  lemma ExampleDecimals()
    ensures Text.IntToDecimal(443) == "443" && Text.IntToDecimal(52144) == "52144"
    ensures Text.IntToDecimal(6) == "6" && Text.IntToDecimal(1500) == "1500"
  {
    assert Text.NatToDecimal(44) == "44";
    assert Text.NatToDecimal(52) == "52";
    assert Text.NatToDecimal(521) == "521";
    assert Text.NatToDecimal(5214) == "5214";
    assert Text.NatToDecimal(15) == "15";
    assert Text.NatToDecimal(150) == "150";
  }

  /** A typical TCP record renders its endpoints, protocol number and
      byte count. */
  lemma SummaryOfTcpFlow(codec: JsonCodec)
    ensures var conn := map["src_ip" := JStr("10.128.0.15"), "src_port" := JInt(443),
                            "dest_ip" := JStr("10.128.0.22"), "dest_port" := JInt(52144),
                            "protocol" := JInt(6)];
      BuildSummary(map["connection" := JObj(conn), "bytes_sent" := JInt(1500)], codec)
      == Ok("VPC Flow: " + ("10.128.0.15" + ":" + "443" + " -> " + "10.128.0.22" + ":" + "52144"
                            + " proto=" + "6" + " bytes=" + "1500"))
  {
    var conn := map["src_ip" := JStr("10.128.0.15"), "src_port" := JInt(443),
                    "dest_ip" := JStr("10.128.0.22"), "dest_port" := JInt(52144),
                    "protocol" := JInt(6)];
    var f := map["connection" := JObj(conn), "bytes_sent" := JInt(1500)];
    ExampleDecimals();
    assert Block(f, "connection") == Ok(conn);
    assert Show(conn, "src_ip", codec) == "10.128.0.15";
    assert Show(conn, "src_port", codec) == "443";
    assert Show(conn, "dest_ip", codec) == "10.128.0.22";
    assert Show(conn, "dest_port", codec) == "52144";
    assert Show(conn, "protocol", codec) == "6";
    assert Show(f, "bytes_sent", codec) == "1500";
  }

  /** `format_ingest_api_payload`: `msg`, then `_lm.resourceId` when there is
      a resource id, then the metadata, which wins on a clash. */
  function FormatIngestApiPayload(f: Obj, resourceId: Option<Obj>, metadata: Obj, codec: JsonCodec): (r: Result<Obj>)
    ensures r.Ok? <==> BuildSummary(f, codec).Ok?
    ensures r.Ok? ==> r.value.Keys == {"msg"} + metadata.Keys
                                      + (if resourceId.Some? then {"_lm.resourceId"} else {})
    ensures r.Ok? ==> forall k :: k in metadata ==> r.value[k] == metadata[k]
    ensures r.Ok? && "msg" !in metadata ==> r.value["msg"] == JStr(BuildSummary(f, codec).value)
    ensures r.Ok? && resourceId.Some? && "_lm.resourceId" !in metadata ==>
              r.value["_lm.resourceId"] == JObj(resourceId.value)
  {
    match BuildSummary(f, codec)
    case Err(e) => Err(e)
    case Ok(summary) =>
      var payload := map["msg" := JStr(summary)];
      var payload := if resourceId.Some? then payload["_lm.resourceId" := JObj(resourceId.value)] else payload;
      Ok(payload + metadata)
  }

  /** With metadata from `ExtractMetadata`, the ingest record is exactly the
      summary, the resource id when there is one, and the metadata. */
  lemma IngestPayloadShape(f: Obj, codec: JsonCodec)
    requires ExtractResourceId(f).Ok? && ExtractMetadata(f).Ok? && BuildSummary(f, codec).Ok?
    ensures var rid := ExtractResourceId(f).value;
            var md := ExtractMetadata(f).value;
            var p := FormatIngestApiPayload(f, rid, md, codec).value;
      && p["msg"] == JStr(BuildSummary(f, codec).value)
      && ("_lm.resourceId" in p <==> rid.Some?)
      && (rid.Some? ==> p["_lm.resourceId"] == JObj(rid.value))
      && (forall k :: k in p && k != "msg" && k != "_lm.resourceId" ==> k in md && p[k] == md[k])
  {
    var md := ExtractMetadata(f).value;
    MetadataKeyGroups();
    assert "msg" !in md && "_lm.resourceId" !in md;
  }

  /** `format_webhook_payload` as a value: the summary under `message`, the
      LogEntry's timestamp, the connection fields and traffic fields lifted
      to the top, and the nested blocks kept whole. */
  function WebhookPayload(f: Obj, entry: Obj, codec: JsonCodec): (r: Result<Obj>)
    ensures r.Ok? <==> Block(f, "connection").Ok?
    ensures r.Err? ==> r.exc == AttributeError
    ensures r.Ok? ==> "message" in r.value
  {
    match Block(f, "connection")
    case Err(e) => Err(e)
    case Ok(conn) =>
      Ok(map["message" := JStr(SummaryLine(f, conn, codec))]
         + Pick(entry, ["timestamp"])
         + Pick(conn, ConnectionKeys)
         + Pick(f, WebhookTrafficKeys)
         + Pick(f, NestedKeys))
  }

  /** `for key in keys: if key in src: payload[key] = src[key]`. */
  method CopyPresent(payload: Obj, src: Obj, keys: seq<string>) returns (r: Obj)
    ensures r == payload + Pick(src, keys)
  {
    r := payload;
    for i := 0 to |keys|
      invariant r == payload + Pick(src, keys[..i])
    {
      var key := keys[i];
      assert keys[..i + 1] == keys[..i] + [key];
      PickSnoc(src, keys[..i], key);
      if key in src {
        UnionUpdate(payload, Pick(src, keys[..i]), key, src[key]);
        r := r[key := src[key]];
      }
    }
    assert keys[..|keys|] == keys;
  }

  /** `format_webhook_payload`, step by step as the source builds it. */
  method FormatWebhookPayload(f: Obj, entry: Obj, codec: JsonCodec) returns (r: Result<Obj>)
    ensures r == WebhookPayload(f, entry, codec)
  {
    var summary := BuildSummary(f, codec);
    if summary.Err? {
      return Err(summary.exc);
    }
    var payload := map["message" := JStr(summary.value)];
    if "timestamp" in entry {
      payload := payload["timestamp" := entry["timestamp"]];
    }
    assert payload == map["message" := JStr(summary.value)] + Pick(entry, ["timestamp"]);
    var conn := Block(f, "connection").value;
    payload := CopyPresent(payload, conn, ConnectionKeys);
    payload := CopyPresent(payload, f, WebhookTrafficKeys);
    payload := CopyPresent(payload, f, NestedKeys);
    return Ok(payload);
  }

  /** The webhook key groups share no key with each other or with
      "message" and "timestamp". */
  lemma WebhookKeyGroups()
    ensures forall k :: k in ConnectionKeys ==> k !in WebhookTrafficKeys && k !in NestedKeys
    ensures forall k :: k in WebhookTrafficKeys ==> k !in NestedKeys
    ensures "message" !in ConnectionKeys && "message" !in WebhookTrafficKeys && "message" !in NestedKeys
    ensures "timestamp" !in ConnectionKeys && "timestamp" !in WebhookTrafficKeys && "timestamp" !in NestedKeys
  {
  }

  /** What the webhook record holds: `message` always; `timestamp` exactly
      when the LogEntry has one; each connection, traffic or nested key
      exactly when its source has it, with the identical value; nothing
      else. So a top-level `src_ip` is `connection.src_ip`. */
  lemma WebhookPayloadKeys(f: Obj, entry: Obj, codec: JsonCodec)
    requires WebhookPayload(f, entry, codec).Ok?
    ensures var p := WebhookPayload(f, entry, codec).value;
            var conn := Block(f, "connection").value;
      && p["message"] == JStr(BuildSummary(f, codec).value)
      && ("timestamp" in p <==> "timestamp" in entry)
      && ("timestamp" in p ==> p["timestamp"] == entry["timestamp"])
      && (forall k :: k in ConnectionKeys ==> (k in p <==> k in conn) && (k in p ==> p[k] == conn[k]))
      && (forall k :: k in WebhookTrafficKeys ==> (k in p <==> k in f) && (k in p ==> p[k] == f[k]))
      && (forall k :: k in NestedKeys ==> (k in p <==> k in f) && (k in p ==> p[k] == f[k]))
      && (forall k :: k in p ==> k == "message" || k == "timestamp" || k in ConnectionKeys
                                 || k in WebhookTrafficKeys || k in NestedKeys)
  {
    WebhookHeadFields(f, entry, codec);
    WebhookConnectionFields(f, entry, codec);
    WebhookFlowFields(f, entry, codec);
    WebhookOnlyKnownKeys(f, entry, codec);
  }

  /** The webhook record as the union of its five parts. */
  lemma WebhookParts(f: Obj, entry: Obj, codec: JsonCodec)
    requires WebhookPayload(f, entry, codec).Ok?
    ensures var conn := Block(f, "connection").value;
      WebhookPayload(f, entry, codec).value
      == map["message" := JStr(SummaryLine(f, conn, codec))] + Pick(entry, ["timestamp"])
         + Pick(conn, ConnectionKeys) + Pick(f, WebhookTrafficKeys) + Pick(f, NestedKeys)
  {
  }

  lemma WebhookHeadFields(f: Obj, entry: Obj, codec: JsonCodec)
    requires WebhookPayload(f, entry, codec).Ok?
    ensures var p := WebhookPayload(f, entry, codec).value;
      && p["message"] == JStr(BuildSummary(f, codec).value)
      && ("timestamp" in p <==> "timestamp" in entry)
      && ("timestamp" in p ==> p["timestamp"] == entry["timestamp"])
  {
    var conn := Block(f, "connection").value;
    WebhookParts(f, entry, codec);
    WebhookKeyGroups();
    assert "message" !in Pick(conn, ConnectionKeys) && "message" !in Pick(f, WebhookTrafficKeys)
        && "message" !in Pick(f, NestedKeys);
    assert "timestamp" !in Pick(conn, ConnectionKeys) && "timestamp" !in Pick(f, WebhookTrafficKeys)
        && "timestamp" !in Pick(f, NestedKeys);
  }

  lemma WebhookConnectionFields(f: Obj, entry: Obj, codec: JsonCodec)
    requires WebhookPayload(f, entry, codec).Ok?
    ensures var p := WebhookPayload(f, entry, codec).value;
            var conn := Block(f, "connection").value;
      forall k :: k in ConnectionKeys ==> (k in p <==> k in conn) && (k in p ==> p[k] == conn[k])
  {
    var conn := Block(f, "connection").value;
    WebhookParts(f, entry, codec);
    WebhookKeyGroups();
    var p := WebhookPayload(f, entry, codec).value;
    forall k | k in ConnectionKeys
      ensures (k in p <==> k in conn) && (k in p ==> p[k] == conn[k])
    {
      assert k !in Pick(f, WebhookTrafficKeys) && k !in Pick(f, NestedKeys);
      assert k != "message" && k != "timestamp";
    }
  }

  lemma WebhookFlowFields(f: Obj, entry: Obj, codec: JsonCodec)
    requires WebhookPayload(f, entry, codec).Ok?
    ensures var p := WebhookPayload(f, entry, codec).value;
      && (forall k :: k in WebhookTrafficKeys ==> (k in p <==> k in f) && (k in p ==> p[k] == f[k]))
      && (forall k :: k in NestedKeys ==> (k in p <==> k in f) && (k in p ==> p[k] == f[k]))
  {
    WebhookParts(f, entry, codec);
    WebhookKeyGroups();
    var p := WebhookPayload(f, entry, codec).value;
    forall k | k in WebhookTrafficKeys
      ensures (k in p <==> k in f) && (k in p ==> p[k] == f[k])
    {
      assert k !in Pick(f, NestedKeys);
    }
  }

  lemma WebhookOnlyKnownKeys(f: Obj, entry: Obj, codec: JsonCodec)
    requires WebhookPayload(f, entry, codec).Ok?
    ensures var p := WebhookPayload(f, entry, codec).value;
      forall k :: k in p ==> k == "message" || k == "timestamp" || k in ConnectionKeys
                             || k in WebhookTrafficKeys || k in NestedKeys
  {
    WebhookParts(f, entry, codec);
  }

  /** The envelope Eventarc delivers for one LogEntry: other fields of the
      event, the Pub/Sub push body and the message are kept as given, and
      `message.data` is the base64 of the UTF-8 JSON text of the entry. */
  function CloudEvent(entry: Obj, codec: JsonCodec, event: Obj, push: Obj, message: Obj): (e: Obj)
    ensures "data" in e
  {
    var encoded := Base64.Encode(codec.utf8(codec.dumps(JObj(entry))));
    event["data" := JObj(push["message" := JObj(message["data" := JStr(encoded)])])]
  }

  /** Where the envelope's three levels sit. */
  lemma CloudEventLevels(entry: Obj, codec: JsonCodec, event: Obj, push: Obj, message: Obj)
    ensures var encoded := Base64.Encode(codec.utf8(codec.dumps(JObj(entry))));
            var msg := message["data" := JStr(encoded)];
            var data := push["message" := JObj(msg)];
      && GetOrNull(CloudEvent(entry, codec, event, push, message), "data") == JObj(data)
      && Truthy(JObj(data)) && Truthy(JObj(msg))
      && Field(JObj(data), "message") == JObj(msg)
      && Field(JObj(msg), "data") == JStr(encoded)
  {
    var encoded := Base64.Encode(codec.utf8(codec.dumps(JObj(entry))));
    var msg := message["data" := JStr(encoded)];
    var data := push["message" := JObj(msg)];
    assert "message" in data && "data" in msg;
  }

  /** Unwrapping an envelope built from a LogEntry gives the entry back, and
      its `jsonPayload` is the flow log, provided the JSON codec reads back
      what it wrote for this entry. */
  lemma CloudEventRoundTrip(entry: Obj, codec: JsonCodec, event: Obj, push: Obj, message: Obj)
    requires codec.loads(codec.utf8(codec.dumps(JObj(entry)))) == Some(JObj(entry))
    requires codec.utf8(codec.dumps(JObj(entry))) != []
    ensures ParsePubsubMessage(CloudEvent(entry, codec, event, push, message), codec) == Ok(JObj(entry))
    ensures "jsonPayload" in entry && Truthy(entry["jsonPayload"]) ==>
              ExtractFlowLog(JObj(entry)) == Ok(entry["jsonPayload"])
  {
    var bytes := codec.utf8(codec.dumps(JObj(entry)));
    var encoded := Base64.Encode(bytes);
    Base64.DecodeEncode(bytes);
    assert |encoded| > 0;
    assert Truthy(JStr(encoded));
    CloudEventLevels(entry, codec, event, push, message);
    assert ParsePubsubMessage(CloudEvent(entry, codec, event, push, message), codec).Ok?;
  }
}
