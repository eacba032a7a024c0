/** The migration importer: records are sorted into devices and channels, which are then written in
    chunks, one transaction per chunk. */
module Importers {
  import opened Wrappers

  datatype EntityType = Device | Platform | Endpoint | Channel | SecretReference | Tenant | Unknown {
    predicate DeviceLike() { this in {Device, Platform, Endpoint} }
  }

  datatype Protocol = Gb28181 | Onvif | Gat1400

  datatype Record = Record(tenant: string, externalId: string, entity: EntityType, protocol: string, parent: string,
                           body: nat)

  /** What identifies a device in the outside world. */
  datatype Identity = Identity(tenant: string, protocol: Protocol, externalId: string)

  datatype NewDevice = NewDevice(identity: Identity, id: nat, body: nat)

  datatype ChannelKey = ChannelKey(tenant: string, device: nat, channel: nat)

  datatype NewChannel = NewChannel(key: ChannelKey, body: nat)

  datatype Row = Row(id: nat, body: nat, revision: nat)

  /** Updating a row: done, refused as a conflict, or an error that ends the import. */
  datatype Update = Updated(row: Row) | Refused | Error

  /** The mapping and validation rules, which the importer takes as given. */
  datatype Rules = Rules(
    parse: string -> Option<Protocol>,
    mapDevice: Record -> Option<NewDevice>,
    validIdentity: string -> bool,
    mapChannel: (Record, Protocol, nat) -> Option<NewChannel>,
    updateDevice: (Row, NewDevice) -> Update,
    updateChannel: (Row, NewChannel) -> Update)
  {
    /** An update keeps the row's id. */
    ghost predicate Sane() {
      && (forall row, d :: updateDevice(row, d).Updated? ==> updateDevice(row, d).row.id == row.id)
      && (forall row, c :: updateChannel(row, c).Updated? ==> updateChannel(row, c).row.id == row.id)
    }
  }

  datatype Event = DeviceCreated(id: nat, body: nat) | DeviceUpdated(row: Row)
                 | ChannelCreated(key: ChannelKey, body: nat) | ChannelUpdated(key: ChannelKey, row: Row)

  /** `retired` and `removed` are rows that lookups do not return but that still occupy their key. */
  datatype Store = Store(
    devices: map<Identity, Row>, retired: set<nat>,
    channels: map<ChannelKey, Row>, removed: set<ChannelKey>,
    outbox: seq<Event>)
  {
    predicate IdTaken(id: nat) { id in retired || exists k | k in devices :: devices[k].id == id }
  }

  datatype Counters = Counters(imported: nat, existing: nat, conflicting: nat, invalid: nat)

  datatype Progress = Progress(store: Store, counters: Counters)

  function Created(d: NewDevice): Event { DeviceCreated(d.id, d.body) }

  datatype Outcome = Written | Existing | Conflicting | Invalid | Aborted

  function Tallied(c: Counters, o: Outcome): Counters {
    match o
    case Written => c.(imported := c.imported + 1)
    case Existing => c.(existing := c.existing + 1)
    case Conflicting => c.(conflicting := c.conflicting + 1)
    case Invalid => c.(invalid := c.invalid + 1)
    case Aborted => c
  }

  /** What becomes of one device. */
  function DeviceWrite(rules: Rules, skip: bool, s: Store, d: NewDevice): (Outcome, Store) {
    if d.identity in s.devices then
      if skip then (Existing, s)
      else
        match rules.updateDevice(s.devices[d.identity], d)
        case Updated(row) =>
          (Written, s.(devices := s.devices[d.identity := row], outbox := s.outbox + [DeviceUpdated(row)]))
        case Refused => (Conflicting, s)
        case Error => (Aborted, s)
    else if s.IdTaken(d.id) then (Conflicting, s)
    else
      (Written, s.(devices := s.devices[d.identity := Row(d.id, d.body, 0)], outbox := s.outbox + [Created(d)]))
  }

  /** The progress after a write; `None` if it ends the import. */
  function Advanced(p: Progress, w: (Outcome, Store)): Option<Progress> {
    if w.0.Aborted? then None else Some(Progress(w.1, Tallied(p.counters, w.0)))
  }

  function DeviceStep(rules: Rules, skip: bool, p: Progress, d: NewDevice): Option<Progress> {
    Advanced(p, DeviceWrite(rules, skip, p.store, d))
  }

  /** All devices, one after the other. */
  function DevicesDone(rules: Rules, skip: bool, p: Progress, ds: seq<NewDevice>): Option<Progress> {
    if ds == [] then Some(p)
    else
      var before := DevicesDone(rules, skip, p, ds[..|ds| - 1]);
      if before.None? then None else DeviceStep(rules, skip, before.value, ds[|ds| - 1])
  }

  lemma DevicesDonePrefix(rules: Rules, skip: bool, p: Progress, ds: seq<NewDevice>, i: nat)
    requires i < |ds|
    ensures
      var before := DevicesDone(rules, skip, p, ds[..i]);
      DevicesDone(rules, skip, p, ds[..i + 1])
      == if before.None? then None else DeviceStep(rules, skip, before.value, ds[i])
  {
    assert ds[..i + 1][..i] == ds[..i];
  }

  /** An error anywhere ends the import. */
  lemma {:induction false} DevicesStop(rules: Rules, skip: bool, p: Progress, ds: seq<NewDevice>, i: nat)
    requires i <= |ds| && DevicesDone(rules, skip, p, ds[..i]).None?
    ensures DevicesDone(rules, skip, p, ds).None?
    decreases |ds| - i
  {
    if i == |ds| {
      assert ds[..i] == ds;
    } else {
      DevicesDonePrefix(rules, skip, p, ds, i);
      DevicesStop(rules, skip, p, ds, i + 1);
    }
  }

  // ---------------------------------------------------------------- channels

  datatype Pending = Pending(record: Record, protocol: Protocol)

  function Lookup(s: Store, key: Identity): Option<nat> {
    if key in s.devices then Some(s.devices[key].id) else None
  }

  /** The channel a record stands for, once its parent is known; `None` if the record is invalid. */
  function Resolved(rules: Rules, s: Store, x: Pending): Option<NewChannel> {
    if !rules.validIdentity(x.record.parent) then None
    else
      var parent := Lookup(s, Identity(x.record.tenant, x.protocol, x.record.parent));
      if parent.None? then None else rules.mapChannel(x.record, x.protocol, parent.value)
  }

  function ChannelWrite(rules: Rules, skip: bool, s: Store, x: Pending): (Outcome, Store) {
    match Resolved(rules, s, x)
    case None => (Invalid, s)
    case Some(ch) =>
      if ch.key in s.channels then
        if skip then (Existing, s)
        else
          match rules.updateChannel(s.channels[ch.key], ch)
          case Updated(row) =>
            (Written, s.(channels := s.channels[ch.key := row], outbox := s.outbox + [ChannelUpdated(ch.key, row)]))
          case Refused => (Conflicting, s)
          case Error => (Aborted, s)
      else if ch.key in s.removed then (Conflicting, s)
      else
        (Written, s.(channels := s.channels[ch.key := Row(ch.key.channel, ch.body, 0)],
                     outbox := s.outbox + [ChannelCreated(ch.key, ch.body)]))
  }

  function ChannelStep(rules: Rules, skip: bool, p: Progress, x: Pending): Option<Progress> {
    Advanced(p, ChannelWrite(rules, skip, p.store, x))
  }

  function ChannelsDone(rules: Rules, skip: bool, p: Progress, xs: seq<Pending>): Option<Progress> {
    if xs == [] then Some(p)
    else
      var before := ChannelsDone(rules, skip, p, xs[..|xs| - 1]);
      if before.None? then None else ChannelStep(rules, skip, before.value, xs[|xs| - 1])
  }

  lemma ChannelsDonePrefix(rules: Rules, skip: bool, p: Progress, xs: seq<Pending>, i: nat)
    requires i < |xs|
    ensures
      var before := ChannelsDone(rules, skip, p, xs[..i]);
      ChannelsDone(rules, skip, p, xs[..i + 1])
      == if before.None? then None else ChannelStep(rules, skip, before.value, xs[i])
  {
    assert xs[..i + 1][..i] == xs[..i];
  }

  lemma {:induction false} ChannelsStop(rules: Rules, skip: bool, p: Progress, xs: seq<Pending>, i: nat)
    requires i <= |xs| && ChannelsDone(rules, skip, p, xs[..i]).None?
    ensures ChannelsDone(rules, skip, p, xs).None?
    decreases |xs| - i
  {
    if i == |xs| {
      assert xs[..i] == xs;
    } else {
      ChannelsDonePrefix(rules, skip, p, xs, i);
      ChannelsStop(rules, skip, p, xs, i + 1);
    }
  }

  /** Remembers what it has looked up. */
  class ParentDeviceResolver {
    var cache: map<Identity, Option<nat>>

    constructor ()
      ensures cache == map[]
    {
      cache := map[];
    }

    /** The cache never disagrees with the table. */
    ghost predicate Faithful(devices: map<Identity, Row>)
      reads this
    {
      forall k | k in cache :: cache[k] == if k in devices then Some(devices[k].id) else None
    }

    method Resolve(s: Store, key: Identity) returns (id: Option<nat>)
      requires Faithful(s.devices)
      modifies this
      ensures Faithful(s.devices) && id == Lookup(s, key)
    {
      if key in cache {
        return cache[key];
      }
      id := Lookup(s, key);
      cache := cache[key := id];
    }
  }

  // ---------------------------------------------------------------- chunks

  function WithWritten(c: Counters, written: nat): Counters { c.(imported := c.imported + written) }

  class Importer {
    /** The committed tables. */
    var store: Store

    constructor (store: Store)
      ensures this.store == store
    {
      this.store := store;
    }

    method WriteDevice(rules: Rules, skip: bool, s: Store, d: NewDevice, event: Event) returns (o: Outcome, s': Store)
      requires event == Created(d)
      ensures (o, s') == DeviceWrite(rules, skip, s, d)
    {
      s' := s;
      if d.identity in s.devices {
        if skip {
          return Existing, s;
        }
        match rules.updateDevice(s.devices[d.identity], d)
        case Updated(row) =>
          s' := s.(devices := s.devices[d.identity := row], outbox := s.outbox + [DeviceUpdated(row)]);
          return Written, s';
        case Refused => return Conflicting, s;
        case Error => return Aborted, s;
      }
      if s.IdTaken(d.id) {
        return Conflicting, s;
      }
      s' := s.(devices := s.devices[d.identity := Row(d.id, d.body, 0)], outbox := s.outbox + [event]);
      o := Written;
    }

    /** `flush_devices`: the size of the chunks makes no difference. */
    method FlushDevices(rules: Rules, skip: bool, every: nat, ds: seq<NewDevice>, events: seq<Event>, c: Counters)
      returns (ok: bool, c': Counters)
      requires every > 0 && |events| == |ds| && forall i | 0 <= i < |ds| :: events[i] == Created(ds[i])
      modifies this
      ensures ok <==> DevicesDone(rules, skip, Progress(old(store), c), ds).Some?
      ensures ok ==> DevicesDone(rules, skip, Progress(old(store), c), ds) == Some(Progress(store, c'))
    {
      ghost var p := Progress(store, c);
      var offset := 0;
      c' := c;
      while offset < |ds|
        invariant offset <= |ds| && DevicesDone(rules, skip, p, ds[..offset]) == Some(Progress(store, c'))
      {
        var size := if every <= |ds| - offset then every else |ds| - offset;
        ok, c' := DeviceChunk(rules, skip, ds, events, offset, size, c', p);
        if !ok {
          return;
        }
        offset := offset + size;
      }
      assert ds[..offset] == ds;
      ok := true;
    }

    /** One transaction. What was written is counted once it is committed. */
    method DeviceChunk(rules: Rules, skip: bool, ds: seq<NewDevice>, events: seq<Event>, offset: nat, size: nat,
                       c: Counters, ghost p: Progress) returns (ok: bool, c': Counters)
      requires |events| == |ds| && (forall i | 0 <= i < |ds| :: events[i] == Created(ds[i])) && offset + size <= |ds|
      requires DevicesDone(rules, skip, p, ds[..offset]) == Some(Progress(store, c))
      modifies this
      ensures !ok ==> DevicesDone(rules, skip, p, ds).None?
      ensures ok ==> DevicesDone(rules, skip, p, ds[..offset + size]) == Some(Progress(store, c'))
    {
      var working, written := store, 0;
      var slice := events[offset..offset + size];
      c' := c;
      for j := 0 to size
        invariant store == old(store)
        invariant DevicesDone(rules, skip, p, ds[..offset + j]) == Some(Progress(working, WithWritten(c', written)))
      {
        assert slice[j] == events[offset + j] == Created(ds[offset + j]);
        ok, working, c', written := DeviceOne(rules, skip, ds, offset + j, slice[j], working, c', written, p);
        if !ok {
          return;
        }
      }
      store := working;
      ok, c' := true, WithWritten(c', written);
    }

    method DeviceOne(rules: Rules, skip: bool, ds: seq<NewDevice>, k: nat, event: Event,
                     s: Store, c: Counters, written: nat, ghost p: Progress)
      returns (ok: bool, s': Store, c': Counters, written': nat)
      requires k < |ds| && event == Created(ds[k])
      requires DevicesDone(rules, skip, p, ds[..k]) == Some(Progress(s, WithWritten(c, written)))
      ensures !ok ==> DevicesDone(rules, skip, p, ds).None?
      ensures ok ==> DevicesDone(rules, skip, p, ds[..k + 1]) == Some(Progress(s', WithWritten(c', written')))
    {
      var o;
      o, s' := WriteDevice(rules, skip, s, ds[k], event);
      DevicesDonePrefix(rules, skip, p, ds, k);
      ok := !o.Aborted?;
      if !ok {
        DevicesStop(rules, skip, p, ds, k + 1);
      }
      c', written' := Booked(c, written, o);
    }

    /** Outcomes are counted at once, except that what is written is counted apart. */
    method Booked(c: Counters, written: nat, o: Outcome) returns (c': Counters, written': nat)
      ensures WithWritten(c', written') == Tallied(WithWritten(c, written), o)
    {
      if o.Written? {
        return c, written + 1;
      }
      c', written' := Tallied(c, o), written;
    }

    method WriteChannel(rules: Rules, skip: bool, resolver: ParentDeviceResolver, s: Store, x: Pending)
      returns (o: Outcome, s': Store)
      requires resolver.Faithful(s.devices)
      modifies resolver
      ensures resolver.Faithful(s'.devices) && s'.devices == s.devices
      ensures (o, s') == ChannelWrite(rules, skip, s, x)
    {
      s' := s;
      if !rules.validIdentity(x.record.parent) {
        return Invalid, s;
      }
      var parent := resolver.Resolve(s, Identity(x.record.tenant, x.protocol, x.record.parent));
      if parent.None? {
        return Invalid, s;
      }
      var mapped := rules.mapChannel(x.record, x.protocol, parent.value);
      if mapped.None? {
        return Invalid, s;
      }
      var ch := mapped.value;
      if ch.key in s.channels {
        if skip {
          return Existing, s;
        }
        match rules.updateChannel(s.channels[ch.key], ch)
        case Updated(row) =>
          s' := s.(channels := s.channels[ch.key := row], outbox := s.outbox + [ChannelUpdated(ch.key, row)]);
          return Written, s';
        case Refused => return Conflicting, s;
        case Error => return Aborted, s;
      }
      if ch.key in s.removed {
        return Conflicting, s;
      }
      s' := s.(channels := s.channels[ch.key := Row(ch.key.channel, ch.body, 0)],
               outbox := s.outbox + [ChannelCreated(ch.key, ch.body)]);
      o := Written;
    }

    /** `flush_channels`: one resolver for all chunks. */
    method FlushChannels(rules: Rules, skip: bool, every: nat, xs: seq<Pending>, c: Counters)
      returns (ok: bool, c': Counters)
      requires every > 0
      modifies this
      ensures ok <==> ChannelsDone(rules, skip, Progress(old(store), c), xs).Some?
      ensures ok ==> ChannelsDone(rules, skip, Progress(old(store), c), xs) == Some(Progress(store, c'))
    {
      ghost var p := Progress(store, c);
      var resolver := new ParentDeviceResolver();
      var offset := 0;
      c' := c;
      while offset < |xs|
        invariant offset <= |xs| && ChannelsDone(rules, skip, p, xs[..offset]) == Some(Progress(store, c'))
        invariant resolver.Faithful(store.devices) && fresh(resolver)
      {
        var size := if every <= |xs| - offset then every else |xs| - offset;
        ok, c' := ChannelChunk(rules, skip, resolver, xs, offset, size, c', p);
        if !ok {
          return;
        }
        offset := offset + size;
      }
      assert xs[..offset] == xs;
      ok := true;
    }

    method ChannelChunk(rules: Rules, skip: bool, resolver: ParentDeviceResolver, xs: seq<Pending>, offset: nat,
                        size: nat, c: Counters, ghost p: Progress) returns (ok: bool, c': Counters)
      requires offset + size <= |xs| && resolver.Faithful(store.devices)
      requires ChannelsDone(rules, skip, p, xs[..offset]) == Some(Progress(store, c))
      modifies this, resolver
      ensures !ok ==> ChannelsDone(rules, skip, p, xs).None?
      ensures ok ==> ChannelsDone(rules, skip, p, xs[..offset + size]) == Some(Progress(store, c'))
      ensures ok ==> resolver.Faithful(store.devices)
    {
      var working, written := store, 0;
      c' := c;
      for j := 0 to size
        invariant store == old(store) && resolver.Faithful(working.devices)
        invariant ChannelsDone(rules, skip, p, xs[..offset + j]) == Some(Progress(working, WithWritten(c', written)))
      {
        ok, working, c', written := ChannelOne(rules, skip, resolver, xs, offset + j, working, c', written, p);
        if !ok {
          return;
        }
      }
      store := working;
      ok, c' := true, WithWritten(c', written);
    }

    method ChannelOne(rules: Rules, skip: bool, resolver: ParentDeviceResolver, xs: seq<Pending>, k: nat,
                      s: Store, c: Counters, written: nat, ghost p: Progress)
      returns (ok: bool, s': Store, c': Counters, written': nat)
      requires k < |xs| && resolver.Faithful(s.devices)
      requires ChannelsDone(rules, skip, p, xs[..k]) == Some(Progress(s, WithWritten(c, written)))
      modifies resolver
      ensures !ok ==> ChannelsDone(rules, skip, p, xs).None?
      ensures ok ==> ChannelsDone(rules, skip, p, xs[..k + 1]) == Some(Progress(s', WithWritten(c', written')))
      ensures ok ==> resolver.Faithful(s'.devices)
    {
      var o;
      o, s' := WriteChannel(rules, skip, resolver, s, xs[k]);
      ChannelsDonePrefix(rules, skip, p, xs, k);
      ok := !o.Aborted?;
      if !ok {
        ChannelsStop(rules, skip, p, xs, k + 1);
      }
      c', written' := Booked(c, written, o);
    }

    /** Sorts the records. Every device comes with exactly one event, at the same position. */
    method Sort(rules: Rules, cutover: set<string>, records: seq<Record>)
      returns (devices: seq<NewDevice>, events: seq<Event>, channels: seq<Pending>, skipped: nat, invalid: nat)
      ensures
        var sorted := Sorted(rules, cutover, Protocols(rules, records), records);
        && devices == sorted.devices && channels == sorted.channels
        && skipped == sorted.skipped && invalid == sorted.invalid
      ensures |events| == |devices| && forall i | 0 <= i < |devices| :: events[i] == Created(devices[i])
    {
      devices, events, channels, skipped, invalid := [], [], [], 0, 0;
      var protocols := BuildParentProtocols(rules, records);
      for i := 0 to |records|
        invariant
          var sorted := Sorted(rules, cutover, protocols, records[..i]);
          && devices == sorted.devices && channels == sorted.channels
          && skipped == sorted.skipped && invalid == sorted.invalid
        invariant |events| == |devices| && forall k | 0 <= k < |devices| :: events[k] == Created(devices[k])
      {
        var record := records[i];
        assert records[..i + 1][..i] == records[..i];
        if cutover != {} && record.externalId !in cutover {
          skipped := skipped + 1;
        } else if record.entity.DeviceLike() {
          match rules.mapDevice(record) {
            case None => invalid := invalid + 1;
            case Some(d) => devices, events := devices + [d], events + [Created(d)];
          }
        } else if record.entity.Channel? {
          channels := channels + [Pending(record, ParentProtocol(rules, protocols, record))];
        }
      }
      assert records[..|records|] == records;
    }

    /** The last device-like record of a parent whose protocol can be parsed decides. */
    method BuildParentProtocols(rules: Rules, records: seq<Record>) returns (m: map<(string, string), Protocol>)
      ensures LastDecides(rules, records, m) && m == Protocols(rules, records)
    {
      ProtocolsDecided(rules, records);
      m := map[];
      for i := 0 to |records|
        invariant m == Protocols(rules, records[..i])
      {
        var r := records[i];
        assert records[..i + 1][..i] == records[..i];
        if r.entity.DeviceLike() && rules.parse(r.protocol).Some? {
          m := m[(r.tenant, r.externalId) := rules.parse(r.protocol).value];
        }
      }
      assert records[..|records|] == records;
    }

    /** `import`. Whether it succeeds, what it writes and what it counts do not depend on how many
        records go into a chunk. */
    method Import(rules: Rules, records: seq<Record>, every: nat, cutover: set<string>, skip: bool)
      returns (r: Option<Report>)
      modifies this
      ensures every == 0 ==> r.None? && store == old(store)
      ensures every > 0 ==>
        match Imported(rules, old(store), records, cutover, skip)
        case None => r.None?
        case Some(done) => store == done.0 && r == Some(done.1)
    {
      if every == 0 {
        return None;
      }
      var devices, events, channels, skipped, invalid := Sort(rules, cutover, records);
      var ok, c := FlushDevices(rules, skip, every, devices, events, Counters(0, 0, 0, invalid));
      if !ok {
        return None;
      }
      ok, c := FlushChannels(rules, skip, every, channels, c);
      if !ok {
        return None;
      }
      r := Some(Report(|records|, skipped, c));
    }
  }

  // ---------------------------------------------------------------- the whole import

  /** The record states the protocol of the parent known as `key`. */
  predicate Declares(rules: Rules, r: Record, key: (string, string)) {
    r.entity.DeviceLike() && rules.parse(r.protocol).Some? && (r.tenant, r.externalId) == key
  }

  ghost predicate Declared(rules: Rules, records: seq<Record>, key: (string, string)) {
    exists i :: 0 <= i < |records| && Declares(rules, records[i], key)
  }

  ghost predicate DeclaredLast(rules: Rules, records: seq<Record>, i: nat, key: (string, string)) {
    && i < |records| && Declares(rules, records[i], key)
    && forall j | i < j < |records| :: !Declares(rules, records[j], key)
  }

  /** Exactly the declared parents have a protocol, and it is the one declared last. */
  ghost predicate LastDecides(rules: Rules, records: seq<Record>, m: map<(string, string), Protocol>) {
    && (forall key :: key in m <==> Declared(rules, records, key))
    && (forall i: nat, key | DeclaredLast(rules, records, i, key) ::
          key in m && Some(m[key]) == rules.parse(records[i].protocol))
  }

  lemma {:induction false} ProtocolsDecided(rules: Rules, records: seq<Record>)
    ensures LastDecides(rules, records, Protocols(rules, records))
  {
    if records != [] {
      var init, last := records[..|records| - 1], records[|records| - 1];
      ProtocolsDecided(rules, init);
      forall key ensures Declared(rules, records, key) <==> Declared(rules, init, key) || Declares(rules, last, key) {
        if Declared(rules, init, key) {
          var i :| 0 <= i < |init| && Declares(rules, init[i], key);
          assert Declares(rules, records[i], key);
        }
      }
      forall i: nat, key | DeclaredLast(rules, records, i, key) && i < |init|
        ensures DeclaredLast(rules, init, i, key) && !Declares(rules, last, key)
      {
        assert forall j | i < j < |init| :: init[j] == records[j];
      }
    }
  }

  /** The protocol of every device-like record; of several with one name the last counts. */
  function Protocols(rules: Rules, records: seq<Record>): map<(string, string), Protocol> {
    if records == [] then map[]
    else
      var r := records[|records| - 1];
      var m := Protocols(rules, records[..|records| - 1]);
      if r.entity.DeviceLike() && rules.parse(r.protocol).Some?
      then m[(r.tenant, r.externalId) := rules.parse(r.protocol).value] else m
  }

  function ParentProtocol(rules: Rules, protocols: map<(string, string), Protocol>, r: Record): Protocol {
    if (r.tenant, r.parent) in protocols then protocols[(r.tenant, r.parent)]
    else if rules.parse(r.protocol).Some? then rules.parse(r.protocol).value
    else Gb28181
  }

  datatype Piles = Piles(devices: seq<NewDevice>, channels: seq<Pending>, skipped: nat, invalid: nat, ignored: nat)

  function Sorted(rules: Rules, cutover: set<string>, protocols: map<(string, string), Protocol>,
                  records: seq<Record>): Piles {
    if records == [] then Piles([], [], 0, 0, 0)
    else
      var r := records[|records| - 1];
      var s := Sorted(rules, cutover, protocols, records[..|records| - 1]);
      if cutover != {} && r.externalId !in cutover then s.(skipped := s.skipped + 1)
      else if r.entity.DeviceLike() then
        match rules.mapDevice(r)
        case None => s.(invalid := s.invalid + 1)
        case Some(d) => s.(devices := s.devices + [d])
      else if r.entity.Channel? then s.(channels := s.channels + [Pending(r, ParentProtocol(rules, protocols, r))])
      else s.(ignored := s.ignored + 1)
  }

  datatype Report = Report(read: nat, skipped: nat, counters: Counters)

  function Imported(rules: Rules, s: Store, records: seq<Record>, cutover: set<string>, skip: bool)
    : Option<(Store, Report)>
  {
    var piles := Sorted(rules, cutover, Protocols(rules, records), records);
    var devices := DevicesDone(rules, skip, Progress(s, Counters(0, 0, 0, piles.invalid)), piles.devices);
    if devices.None? then None
    else
      var all := ChannelsDone(rules, skip, devices.value, piles.channels);
      if all.None? then None
      else Some((all.value.store, Report(|records|, piles.skipped, all.value.counters)))
  }

  // ---------------------------------------------------------------- every record is accounted for

  function Total(c: Counters): nat { c.imported + c.existing + c.conflicting + c.invalid }

  lemma {:induction false} PilesAddUp(rules: Rules, cutover: set<string>, protocols: map<(string, string), Protocol>,
                                      records: seq<Record>)
    ensures
      var s := Sorted(rules, cutover, protocols, records);
      |s.devices| + |s.channels| + s.skipped + s.invalid + s.ignored == |records|
  {
    if records != [] {
      PilesAddUp(rules, cutover, protocols, records[..|records| - 1]);
    }
  }

  lemma {:induction false} DevicesAddUp(rules: Rules, skip: bool, p: Progress, ds: seq<NewDevice>)
    requires DevicesDone(rules, skip, p, ds).Some?
    ensures Total(DevicesDone(rules, skip, p, ds).value.counters) == Total(p.counters) + |ds|
  {
    if ds != [] {
      DevicesAddUp(rules, skip, p, ds[..|ds| - 1]);
    }
  }

  lemma {:induction false} ChannelsAddUp(rules: Rules, skip: bool, p: Progress, xs: seq<Pending>)
    requires ChannelsDone(rules, skip, p, xs).Some?
    ensures Total(ChannelsDone(rules, skip, p, xs).value.counters) == Total(p.counters) + |xs|
  {
    if xs != [] {
      ChannelsAddUp(rules, skip, p, xs[..|xs| - 1]);
    }
  }

  /** Every record read is imported, already there, in conflict, invalid, filtered out, or of a kind
      that is ignored. */
  lemma RecordsAddUp(rules: Rules, s: Store, records: seq<Record>, cutover: set<string>, skip: bool)
    requires Imported(rules, s, records, cutover, skip).Some?
    ensures
      var r := Imported(rules, s, records, cutover, skip).value.1;
      r.read == Total(r.counters) + r.skipped + Sorted(rules, cutover, Protocols(rules, records), records).ignored
  {
    var piles := Sorted(rules, cutover, Protocols(rules, records), records);
    var p := Progress(s, Counters(0, 0, 0, piles.invalid));
    PilesAddUp(rules, cutover, Protocols(rules, records), records);
    BothAddUp(rules, skip, p, piles);
  }

  lemma BothAddUp(rules: Rules, skip: bool, p: Progress, piles: Piles)
    requires DevicesDone(rules, skip, p, piles.devices).Some?
    requires ChannelsDone(rules, skip, DevicesDone(rules, skip, p, piles.devices).value, piles.channels).Some?
    ensures
      var devices := DevicesDone(rules, skip, p, piles.devices).value;
      Total(ChannelsDone(rules, skip, devices, piles.channels).value.counters)
      == Total(p.counters) + |piles.devices| + |piles.channels|
  {
    DevicesAddUp(rules, skip, p, piles.devices);
    ChannelsAddUp(rules, skip, DevicesDone(rules, skip, p, piles.devices).value, piles.channels);
  }

  // ---------------------------------------------------------------- what is written

  /** A device is written with exactly one event: created as it is, or updated as the rules say. Nothing else
      changes, and nothing at all unless it is written. */
  lemma DeviceWriteMeans(rules: Rules, skip: bool, s: Store, d: NewDevice)
    ensures
      var (o, s') := DeviceWrite(rules, skip, s, d);
      var known := d.identity in s.devices;
      && (o.Written? <==>
            if known then !skip && rules.updateDevice(s.devices[d.identity], d).Updated? else !s.IdTaken(d.id))
      && (o.Existing? <==> known && skip)
      && (o.Aborted? <==> known && !skip && rules.updateDevice(s.devices[d.identity], d).Error?)
      && !o.Invalid?
      && (!o.Written? ==> s' == s)
      && (o.Written? ==>
            var row := if known then rules.updateDevice(s.devices[d.identity], d).row else Row(d.id, d.body, 0);
            && s'.devices == s.devices[d.identity := row] && s'.channels == s.channels
            && s'.retired == s.retired && s'.removed == s.removed
            && s'.outbox == s.outbox + [if known then DeviceUpdated(row) else DeviceCreated(d.id, d.body)])
  {
  }

  /** A channel is written with exactly one event, under its parent's id; it is invalid exactly when its
      parent's name is, its parent is unknown, or the rules make nothing of it. */
  lemma ChannelWriteMeans(rules: Rules, skip: bool, s: Store, x: Pending)
    ensures
      var (o, s') := ChannelWrite(rules, skip, s, x);
      var parent := Identity(x.record.tenant, x.protocol, x.record.parent);
      var found := rules.validIdentity(x.record.parent) && parent in s.devices;
      && (o.Invalid? <==> !found || rules.mapChannel(x.record, x.protocol, s.devices[parent].id).None?)
      && (!o.Written? ==> s' == s)
      && (!o.Invalid? ==>
            var ch := rules.mapChannel(x.record, x.protocol, s.devices[parent].id).value;
            var known := ch.key in s.channels;
            && (o.Existing? <==> known && skip)
            && (o.Aborted? <==> known && !skip && rules.updateChannel(s.channels[ch.key], ch).Error?)
            && (o.Written? <==>
                  if known then !skip && rules.updateChannel(s.channels[ch.key], ch).Updated? else ch.key !in s.removed)
            && (o.Written? ==>
                  var row := if known then rules.updateChannel(s.channels[ch.key], ch).row
                             else Row(ch.key.channel, ch.body, 0);
                  && s'.channels == s.channels[ch.key := row] && s'.devices == s.devices
                  && s'.retired == s.retired && s'.removed == s.removed
                  && s'.outbox
                     == s.outbox + [if known then ChannelUpdated(ch.key, row) else ChannelCreated(ch.key, ch.body)]))
  {
  }

  lemma {:induction false} DevicesTell(rules: Rules, skip: bool, p: Progress, ds: seq<NewDevice>)
    requires DevicesDone(rules, skip, p, ds).Some?
    ensures
      var q := DevicesDone(rules, skip, p, ds).value;
      p.store.outbox <= q.store.outbox
      && |q.store.outbox| - |p.store.outbox| == q.counters.imported - p.counters.imported
  {
    if ds != [] {
      DevicesTell(rules, skip, p, ds[..|ds| - 1]);
    }
  }

  lemma {:induction false} ChannelsTell(rules: Rules, skip: bool, p: Progress, xs: seq<Pending>)
    requires ChannelsDone(rules, skip, p, xs).Some?
    ensures
      var q := ChannelsDone(rules, skip, p, xs).value;
      p.store.outbox <= q.store.outbox
      && |q.store.outbox| - |p.store.outbox| == q.counters.imported - p.counters.imported
  {
    if xs != [] {
      ChannelsTell(rules, skip, p, xs[..|xs| - 1]);
    }
  }

  /** An import tells exactly one event for each record it counts as imported. */
  lemma OneEventEach(rules: Rules, s: Store, records: seq<Record>, cutover: set<string>, skip: bool)
    requires Imported(rules, s, records, cutover, skip).Some?
    ensures
      var (s', r) := Imported(rules, s, records, cutover, skip).value;
      s.outbox <= s'.outbox && |s'.outbox| == |s.outbox| + r.counters.imported
  {
    var piles := Sorted(rules, cutover, Protocols(rules, records), records);
    var p := Progress(s, Counters(0, 0, 0, piles.invalid));
    DevicesTell(rules, skip, p, piles.devices);
    ChannelsTell(rules, skip, DevicesDone(rules, skip, p, piles.devices).value, piles.channels);
  }

  /** The row of a device nobody else writes to. */
  lemma {:induction false} DevicesLeave(rules: Rules, skip: bool, p: Progress, ds: seq<NewDevice>, key: Identity)
    requires DevicesDone(rules, skip, p, ds).Some? && key in p.store.devices
    requires forall i | 0 <= i < |ds| :: ds[i].identity != key
    ensures
      var q := DevicesDone(rules, skip, p, ds).value;
      key in q.store.devices && q.store.devices[key] == p.store.devices[key]
  {
    if ds != [] {
      DevicesLeave(rules, skip, p, ds[..|ds| - 1], key);
    }
  }

  /** Without skipping, a device that exists, is imported once and may be updated ends up as the rules
      update it, and the update is told. */
  lemma {:induction false} ExistingIsUpdated(rules: Rules, p: Progress, ds: seq<NewDevice>, i: nat)
    requires DevicesDone(rules, false, p, ds).Some? && i < |ds| && ds[i].identity in p.store.devices
    requires forall j | 0 <= j < |ds| && j != i :: ds[j].identity != ds[i].identity
    requires rules.updateDevice(p.store.devices[ds[i].identity], ds[i]).Updated?
    ensures
      var q := DevicesDone(rules, false, p, ds).value;
      var row := rules.updateDevice(p.store.devices[ds[i].identity], ds[i]).row;
      && ds[i].identity in q.store.devices && q.store.devices[ds[i].identity] == row
      && p.store.outbox <= q.store.outbox && DeviceUpdated(row) in q.store.outbox[|p.store.outbox|..]
    decreases |ds|
  {
    var init, last := ds[..|ds| - 1], ds[|ds| - 1];
    var before := DevicesDone(rules, false, p, init).value;
    DevicesTell(rules, false, p, init);
    DevicesTell(rules, false, p, ds);
    if i < |init| {
      ExistingIsUpdated(rules, p, init, i);
      var after := DeviceStep(rules, false, before, last).value;
      assert before.store.outbox <= after.store.outbox;
      var row := rules.updateDevice(p.store.devices[ds[i].identity], ds[i]).row;
      var k :| 0 <= k < |before.store.outbox[|p.store.outbox|..]|
               && before.store.outbox[|p.store.outbox|..][k] == DeviceUpdated(row);
      assert after.store.outbox[|p.store.outbox|..][k] == DeviceUpdated(row);
    } else {
      DevicesLeave(rules, false, p, init, last.identity);
      var after := DeviceStep(rules, false, before, last).value;
      assert after.store.outbox[|p.store.outbox|..][|before.store.outbox| - |p.store.outbox|]
          == after.store.outbox[|before.store.outbox|];
    }
  }

  // ---------------------------------------------------------------- what is sorted where

  predicate Chosen(cutover: set<string>, r: Record) { cutover == {} || r.externalId in cutover }

  /** The record at `k` becomes the device `d`. */
  predicate BecomesDevice(rules: Rules, cutover: set<string>, records: seq<Record>, k: nat, d: NewDevice) {
    k < |records| && Chosen(cutover, records[k]) && records[k].entity in {Device, Platform, Endpoint}
    && rules.mapDevice(records[k]) == Some(d)
  }

  predicate BecomesChannel(cutover: set<string>, records: seq<Record>, k: nat, x: Pending) {
    k < |records| && Chosen(cutover, records[k]) && records[k].entity == Channel && x.record == records[k]
  }

  ghost predicate SomeDevice(rules: Rules, cutover: set<string>, records: seq<Record>, d: NewDevice) {
    exists k: nat :: BecomesDevice(rules, cutover, records, k, d)
  }

  ghost predicate SomeChannel(cutover: set<string>, records: seq<Record>, x: Pending) {
    exists k: nat :: BecomesChannel(cutover, records, k, x)
  }

  lemma LastBecomes(rules: Rules, cutover: set<string>, records: seq<Record>)
    requires records != []
    ensures
      var init, n := records[..|records| - 1], |records| - 1;
      && (forall d :: SomeDevice(rules, cutover, records, d) <==>
            SomeDevice(rules, cutover, init, d) || BecomesDevice(rules, cutover, records, n, d))
      && (forall x :: SomeChannel(cutover, records, x) <==>
            SomeChannel(cutover, init, x) || BecomesChannel(cutover, records, n, x))
  {
    var init, n := records[..|records| - 1], |records| - 1;
    forall d ensures SomeDevice(rules, cutover, records, d) <==>
                       SomeDevice(rules, cutover, init, d) || BecomesDevice(rules, cutover, records, n, d)
    {
      forall k: nat | k < n
        ensures BecomesDevice(rules, cutover, init, k, d) == BecomesDevice(rules, cutover, records, k, d)
      {
      }
      if SomeDevice(rules, cutover, init, d) {
        var k: nat :| BecomesDevice(rules, cutover, init, k, d);
        assert BecomesDevice(rules, cutover, records, k, d);
      }
    }
    forall x ensures SomeChannel(cutover, records, x) <==>
                       SomeChannel(cutover, init, x) || BecomesChannel(cutover, records, n, x)
    {
      forall k: nat | k < n ensures BecomesChannel(cutover, init, k, x) == BecomesChannel(cutover, records, k, x) {
      }
      if SomeChannel(cutover, init, x) {
        var k: nat :| BecomesChannel(cutover, init, k, x);
        assert BecomesChannel(cutover, records, k, x);
      }
    }
  }

  /** The devices are what the chosen device-like records map to; the pending channels are the chosen channel
      records, each with the protocol of its parent. */
  lemma {:induction false} SortedHolds(rules: Rules, cutover: set<string>, protocols: map<(string, string), Protocol>,
                                       records: seq<Record>)
    ensures
      var piles := Sorted(rules, cutover, protocols, records);
      && (forall d :: d in piles.devices <==> SomeDevice(rules, cutover, records, d))
      && (forall x :: x in piles.channels <==>
            SomeChannel(cutover, records, x) && x.protocol == ParentProtocol(rules, protocols, x.record))
  {
    if records != [] {
      SortedHolds(rules, cutover, protocols, records[..|records| - 1]);
      LastBecomes(rules, cutover, records);
    }
  }

  /** The protocol of a parent is the one its last declaration states; a parent nobody declares is taken to
      speak the channel's own protocol, or else GB28181. */
  lemma ParentKnown(rules: Rules, records: seq<Record>, r: Record)
    ensures
      var protocol, key := ParentProtocol(rules, Protocols(rules, records), r), (r.tenant, r.parent);
      && (forall i: nat | DeclaredLast(rules, records, i, key) :: Some(protocol) == rules.parse(records[i].protocol))
      && (!Declared(rules, records, key) ==>
            protocol == if rules.parse(r.protocol).Some? then rules.parse(r.protocol).value else Gb28181)
  {
    ProtocolsDecided(rules, records);
  }

  // ---------------------------------------------------------------- running it again

  /** Nothing more is written for this device by a run that skips what exists. */
  predicate DeviceSettled(s: Store, d: NewDevice) { d.identity in s.devices || s.IdTaken(d.id) }

  predicate ChannelSettled(rules: Rules, s: Store, x: Pending) {
    var ch := Resolved(rules, s, x);
    ch.None? || ch.value.key in s.channels || ch.value.key in s.removed
  }

  lemma DeviceSettles(rules: Rules, skip: bool, s: Store, d: NewDevice, e: NewDevice)
    requires rules.Sane()
    ensures
      var (o, s') := DeviceWrite(rules, skip, s, d);
      && (!o.Aborted? ==> DeviceSettled(s', d))
      && (DeviceSettled(s, e) ==> DeviceSettled(s', e))
  {
    var s' := DeviceWrite(rules, skip, s, d).1;
    if DeviceSettled(s, e) && e.identity !in s.devices && e.id !in s.retired {
      var k :| k in s.devices && s.devices[k].id == e.id;
      assert k in s'.devices && s'.devices[k].id == e.id;
    }
  }

  lemma {:induction false} DevicesSettle(rules: Rules, skip: bool, p: Progress, ds: seq<NewDevice>, d: NewDevice)
    requires rules.Sane() && DevicesDone(rules, skip, p, ds).Some? && (d in ds || DeviceSettled(p.store, d))
    ensures DeviceSettled(DevicesDone(rules, skip, p, ds).value.store, d)
  {
    if ds != [] {
      var init, last := ds[..|ds| - 1], ds[|ds| - 1];
      assert ds == init + [last];
      var before := DevicesDone(rules, skip, p, init).value;
      if d in init || DeviceSettled(p.store, d) {
        DevicesSettle(rules, skip, p, init, d);
      }
      DeviceSettles(rules, skip, before.store, last, d);
    }
  }

  lemma ResolvedSame(rules: Rules, s: Store, s': Store, x: Pending)
    requires s'.devices == s.devices
    ensures Resolved(rules, s', x) == Resolved(rules, s, x)
  {
  }

  lemma ChannelSettles(rules: Rules, skip: bool, s: Store, x: Pending)
    ensures
      var (o, s') := ChannelWrite(rules, skip, s, x);
      && s'.devices == s.devices && s'.removed == s.removed && s.channels.Keys <= s'.channels.Keys
      && (!o.Aborted? ==> ChannelSettled(rules, s', x))
  {
    ResolvedSame(rules, s, ChannelWrite(rules, skip, s, x).1, x);
  }

  lemma SettledStays(rules: Rules, s: Store, s': Store, x: Pending)
    requires s'.devices == s.devices && s'.removed == s.removed && s.channels.Keys <= s'.channels.Keys
    requires ChannelSettled(rules, s, x)
    ensures ChannelSettled(rules, s', x)
  {
    ResolvedSame(rules, s, s', x);
  }

  /** Channels leave the devices alone, and a channel once settled stays so. */
  lemma {:induction false} ChannelsSettle(rules: Rules, skip: bool, p: Progress, xs: seq<Pending>, i: nat)
    requires i <= |xs| && ChannelsDone(rules, skip, p, xs).Some?
    ensures
      var s := ChannelsDone(rules, skip, p, xs).value.store;
      s.devices == p.store.devices && (i < |xs| ==> ChannelSettled(rules, s, xs[i]))
    decreases |xs|
  {
    if xs != [] {
      var init, last := xs[..|xs| - 1], xs[|xs| - 1];
      var before := ChannelsDone(rules, skip, p, init).value.store;
      ChannelsSettle(rules, skip, p, init, if i < |init| then i else |init|);
      ChannelSettles(rules, skip, before, last);
      if i < |init| {
        SettledStays(rules, before, ChannelWrite(rules, skip, before, last).1, init[i]);
      }
    }
  }

  lemma {:induction false} SettledDevicesStay(rules: Rules, p: Progress, ds: seq<NewDevice>)
    requires forall i | 0 <= i < |ds| :: DeviceSettled(p.store, ds[i])
    ensures
      var r := DevicesDone(rules, true, p, ds);
      r.Some? && r.value.store == p.store && r.value.counters.imported == p.counters.imported
  {
    if ds != [] {
      SettledDevicesStay(rules, p, ds[..|ds| - 1]);
      assert DeviceSettled(p.store, ds[|ds| - 1]);
    }
  }

  lemma {:induction false} SettledChannelsStay(rules: Rules, p: Progress, xs: seq<Pending>)
    requires forall i | 0 <= i < |xs| :: ChannelSettled(rules, p.store, xs[i])
    ensures
      var r := ChannelsDone(rules, true, p, xs);
      r.Some? && r.value.store == p.store && r.value.counters.imported == p.counters.imported
  {
    if xs != [] {
      SettledChannelsStay(rules, p, xs[..|xs| - 1]);
      assert ChannelSettled(rules, p.store, xs[|xs| - 1]);
    }
  }

  /** Running a finished import again, skipping what exists, succeeds and writes nothing: neither a
      row nor an event. */
  lemma RerunWritesNothing(rules: Rules, s: Store, records: seq<Record>, cutover: set<string>, skip: bool)
    requires rules.Sane() && Imported(rules, s, records, cutover, skip).Some?
    ensures
      var after := Imported(rules, s, records, cutover, skip).value.0;
      var again := Imported(rules, after, records, cutover, true);
      again.Some? && again.value.0 == after && again.value.1.counters.imported == 0
  {
    var piles := Sorted(rules, cutover, Protocols(rules, records), records);
    var c := Counters(0, 0, 0, piles.invalid);
    var mid := DevicesDone(rules, skip, Progress(s, c), piles.devices).value;
    var after := ChannelsDone(rules, skip, mid, piles.channels).value.store;
    AllSettled(rules, skip, Progress(s, c), mid, after, piles);
    SettledDevicesStay(rules, Progress(after, c), piles.devices);
    var again := DevicesDone(rules, true, Progress(after, c), piles.devices).value;
    SettledChannelsStay(rules, again, piles.channels);
  }

  lemma AllSettled(rules: Rules, skip: bool, p: Progress, mid: Progress, after: Store, piles: Piles)
    requires rules.Sane() && DevicesDone(rules, skip, p, piles.devices) == Some(mid)
    requires ChannelsDone(rules, skip, mid, piles.channels).Some?
    requires after == ChannelsDone(rules, skip, mid, piles.channels).value.store
    ensures forall i | 0 <= i < |piles.devices| :: DeviceSettled(after, piles.devices[i])
    ensures forall i | 0 <= i < |piles.channels| :: ChannelSettled(rules, after, piles.channels[i])
  {
    ChannelsKeepDevices(rules, skip, mid, piles.channels);
    forall i | 0 <= i < |piles.devices| ensures DeviceSettled(after, piles.devices[i]) {
      DevicesSettle(rules, skip, p, piles.devices, piles.devices[i]);
    }
    forall i | 0 <= i < |piles.channels| ensures ChannelSettled(rules, after, piles.channels[i]) {
      ChannelsSettle(rules, skip, mid, piles.channels, i);
    }
  }

  lemma {:induction false} ChannelsKeepDevices(rules: Rules, skip: bool, p: Progress, xs: seq<Pending>)
    requires ChannelsDone(rules, skip, p, xs).Some?
    ensures
      var s := ChannelsDone(rules, skip, p, xs).value.store;
      s.devices == p.store.devices && s.retired == p.store.retired
  {
    if xs != [] {
      ChannelsKeepDevices(rules, skip, p, xs[..|xs| - 1]);
    }
  }
}
