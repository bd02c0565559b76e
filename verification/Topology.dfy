/** src/node_config.cpp, `parse_peer_topology`: "id=host:port" entries separated by commas,
    at character level. */
module Topologies {
  import opened Wrappers
  import opened Sorting
  import Tokenizer

  datatype Endpoint = Endpoint(id: nat, host: string, port: nat)

  const ULONG_RANGE := 0x1_0000_0000_0000_0000

  // ---------------------------------------------------------------------------
  // Characters and searching
  // ---------------------------------------------------------------------------

  /** `std::isspace` in the C locale. */
  predicate IsSpace(c: char) {
    c == ' ' || ('\t' <= c <= '\r')
  }

  predicate IsDigit(c: char) { '0' <= c <= '9' }

  predicate IsHostChar(c: char) {
    || IsDigit(c) || 'a' <= c <= 'z' || 'A' <= c <= 'Z'
    || c == '.' || c == '-' || c == '_' || c == '[' || c == ']' || c == ':'
  }

  function Trim(s: string): string {
    Tokenizer.Strip(s, IsSpace)
  }

  method TrimLoop(s: string) returns (t: string)
    ensures t == Trim(s)
  {
    t := s;
    while t != "" && IsSpace(t[0])
      invariant Trim(t) == Trim(s)
      decreases |t|
    {
      t := t[1..];
    }
    while t != "" && IsSpace(t[|t| - 1])
      invariant Trim(t) == Trim(s)
      invariant t != "" ==> !IsSpace(t[0])
      decreases |t|
    {
      t := t[..|t| - 1];
    }
  }

  function Find(s: string, c: char): (first: Option<nat>)
    ensures first.Some? ==> first.value < |s| && s[first.value] == c && c !in s[..first.value]
    ensures first.None? ==> c !in s
  {
    if s == "" then None
    else if s[0] == c then Some(0)
    else
      var rest := Find(s[1..], c);
      assert rest.Some? ==> s[..rest.value + 1] == [s[0]] + s[1..][..rest.value];
      if rest.Some? then Some(rest.value + 1) else None
  }

  function FindLast(s: string, c: char): (last: Option<nat>)
    ensures last.Some? ==> last.value < |s| && s[last.value] == c && c !in s[last.value + 1..]
    ensures last.None? ==> c !in s
  {
    if s == "" then None
    else if s[|s| - 1] == c then Some(|s| - 1)
    else
      var init := s[..|s| - 1];
      var earlier := FindLast(init, c);
      assert earlier.Some? ==> s[earlier.value + 1..] == init[earlier.value + 1..] + [s[|s| - 1]];
      earlier
  }

  // ---------------------------------------------------------------------------
  // Numbers
  // ---------------------------------------------------------------------------

  predicate AllDigits(s: string) { forall i :: 0 <= i < |s| ==> IsDigit(s[i]) }

  function Value(s: string): nat
    requires AllDigits(s)
  {
    if s == "" then 0 else Value(s[..|s| - 1]) * 10 + (s[|s| - 1] - '0') as nat
  }

  function Unsigned(s: string): string {
    if s != "" && (s[0] == '+' || s[0] == '-') then s[1..] else s
  }

  predicate Negative(s: string) { s != "" && s[0] == '-' }

  /** `std::stoul` of a whole string: a sign is accepted and '-' negates modulo 2^64. */
  function ParseUnsigned(s: string): Option<nat> {
    var digits := Unsigned(s);
    if digits == "" || !AllDigits(digits) || Value(digits) >= ULONG_RANGE then None
    else if Negative(s) then Some((ULONG_RANGE - Value(digits)) % ULONG_RANGE)
    else Some(Value(digits))
  }

  /** `std::stoi` of a whole string, kept when it is a port. */
  function ParsePort(s: string): Option<nat> {
    var digits := Unsigned(s);
    if digits == "" || !AllDigits(digits) || Negative(s) || !(1 <= Value(digits) <= 65535) then None
    else Some(Value(digits))
  }

  function NumberText(n: nat): string {
    if n < 10 then ['0' + n as char] else NumberText(n / 10) + ['0' + (n % 10) as char]
  }

  lemma {:induction false} NumberRoundTrip(n: nat)
    ensures NumberText(n) != "" && AllDigits(NumberText(n)) && Value(NumberText(n)) == n
  {
    if n >= 10 {
      NumberRoundTrip(n / 10);
      var s, init := NumberText(n), NumberText(n / 10);
      assert s[..|s| - 1] == init;
    } else {
      assert NumberText(n)[..0] == "";
    }
  }

  // ---------------------------------------------------------------------------
  // One entry
  // ---------------------------------------------------------------------------

  predicate IsHost(host: string) {
    host != "" && forall i :: 0 <= i < |host| ==> IsHostChar(host[i])
  }

  function ParseAddress(id: nat, address: string): Option<Endpoint> {
    var colon := FindLast(address, ':');
    if colon.None? || colon.value == 0 || colon.value == |address| - 1 then None
    else
      var host, port := Trim(address[..colon.value]), ParsePort(Trim(address[colon.value + 1..]));
      if !IsHost(host) || port.None? then None else Some(Endpoint(id, host, port.value))
  }

  function ParseEntry(entry: string): Option<Endpoint> {
    var token := Trim(entry);
    var eq := Find(token, '=');
    if token == "" || eq.None? || eq.value == 0 || eq.value == |token| - 1 then None
    else
      var id := ParseUnsigned(Trim(token[..eq.value]));
      if id.None? then None else ParseAddress(id.value, Trim(token[eq.value + 1..]))
  }

  /** The grammar of an address: host, the last colon, port, with spaces around either. */
  ghost predicate IsAddress(address: string, host: string, port: string) {
    address == host + [':'] + port && host != "" && port != "" && ':' !in port
  }

  /** The grammar of an entry, once trimmed: identifier, the first equals sign, address. */
  ghost predicate IsIdAndAddress(token: string, id: string, address: string) {
    token == id + ['='] + address && id != "" && address != "" && '=' !in id
  }

  lemma AddressGrammar(id: nat, address: string, e: Endpoint)
    ensures ParseAddress(id, address) == Some(e) <==>
              exists host, port :: IsAddress(address, host, port)
                                   && e == Endpoint(id, Trim(host), e.port)
                                   && IsHost(Trim(host)) && ParsePort(Trim(port)) == Some(e.port)
  {
    hide IsHost, ParsePort, Trim;
    var colon := FindLast(address, ':');
    if ParseAddress(id, address) == Some(e) {
      var host, port := address[..colon.value], address[colon.value + 1..];
      assert address == host + [':'] + port;
      assert IsAddress(address, host, port);
    }
    forall host, port | IsAddress(address, host, port)
      ensures colon == Some(|host|) && address[..|host|] == host && address[|host| + 1..] == port
    {
      FindLastAt(host, ':', port);
    }
  }

  /** Exactly the entries that are accepted, and what each stands for. */
  lemma EntryGrammar(entry: string, e: Endpoint)
    ensures ParseEntry(entry) == Some(e) <==>
              exists id, address :: IsIdAndAddress(Trim(entry), id, address)
                                    && ParseUnsigned(Trim(id)) == Some(e.id)
                                    && ParseAddress(e.id, Trim(address)) == Some(e)
  {
    hide ParseUnsigned, ParseAddress, Trim;
    var token := Trim(entry);
    var eq := Find(token, '=');
    if ParseEntry(entry) == Some(e) {
      var id, address := token[..eq.value], token[eq.value + 1..];
      assert token == id + ['='] + address;
      assert IsIdAndAddress(token, id, address);
      AddressKeepsId(ParseUnsigned(Trim(id)).value, Trim(address));
    }
    forall id, address | IsIdAndAddress(token, id, address)
      ensures eq == Some(|id|) && token[..|id|] == id && token[|id| + 1..] == address
    {
      FindAt(id, '=', address);
    }
  }

  lemma AddressKeepsId(id: nat, address: string)
    ensures ParseAddress(id, address).Some? ==> ParseAddress(id, address).value.id == id
  {
  }

  /** A number is an optional sign and digits; the value decides the rest. */
  lemma NumberGrammar(s: string, n: nat)
    ensures ParsePort(s) == Some(n) <==>
              1 <= n <= 65535 && exists digits :: digits != "" && AllDigits(digits) && Value(digits) == n
                                                  && (s == digits || s == ['+'] + digits)
    ensures ParseUnsigned(s) == Some(n) <==>
              exists digits :: digits != "" && AllDigits(digits) && Value(digits) < ULONG_RANGE
                               && (((s == digits || s == ['+'] + digits) && n == Value(digits))
                                   || (s == ['-'] + digits && n == (ULONG_RANGE - Value(digits)) % ULONG_RANGE))
  {
    var digits := Unsigned(s);
    assert s == digits || s == ['+'] + digits || s == ['-'] + digits;
    forall d: string | d != "" && AllDigits(d) && (s == d || s == ['+'] + d || s == ['-'] + d)
      ensures d == digits && (Negative(s) <==> s == ['-'] + d)
    {
      assert IsDigit(d[0]);
      assert s == ['+'] + d || s == ['-'] + d ==> s[1..] == d;
    }
  }

  predicate IsEndpoint(e: Endpoint) {
    e.id < ULONG_RANGE && IsHost(e.host) && 1 <= e.port <= 65535
  }

  /** Whatever is accepted is a legal endpoint. */
  lemma ParsedIsLegal(entry: string)
    ensures ParseEntry(entry).Some? ==> IsEndpoint(ParseEntry(entry).value)
  {
  }

  function Render(e: Endpoint): string {
    NumberText(e.id) + "=" + e.host + ":" + NumberText(e.port)
  }

  lemma TrimmedStays(s: string)
    requires s != "" && !IsSpace(s[0]) && !IsSpace(s[|s| - 1])
    ensures Trim(s) == s
  {
  }

  lemma {:induction false} FindAt(a: string, c: char, b: string)
    requires c !in a
    ensures Find(a + [c] + b, c) == Some(|a|)
  {
    var s := a + [c] + b;
    if a != "" {
      assert s[1..] == a[1..] + [c] + b;
      FindAt(a[1..], c, b);
    }
  }

  lemma {:induction false} FindLastAt(a: string, c: char, b: string)
    requires c !in b
    ensures FindLast(a + [c] + b, c) == Some(|a|)
    decreases |b|
  {
    var s := a + [c] + b;
    if b != "" {
      var init := b[..|b| - 1];
      assert s[..|s| - 1] == a + [c] + init;
      FindLastAt(a, c, init);
    }
  }

  lemma DigitsAreNot(s: string, c: char)
    requires AllDigits(s) && !IsDigit(c)
    ensures c !in s
  {
  }

  lemma PortRoundTrip(port: nat)
    requires 1 <= port <= 65535
    ensures ParsePort(Trim(NumberText(port))) == Some(port)
  {
    NumberRoundTrip(port);
    TrimmedStays(NumberText(port));
  }

  lemma IdRoundTrip(id: nat)
    requires id < ULONG_RANGE
    ensures ParseUnsigned(Trim(NumberText(id))) == Some(id)
  {
    NumberRoundTrip(id);
    TrimmedStays(NumberText(id));
  }

  lemma AddressRoundTrip(e: Endpoint)
    requires IsEndpoint(e)
    ensures ParseAddress(e.id, Trim(e.host + ":" + NumberText(e.port))) == Some(e)
  {
    hide ParsePort, NumberText;
    var port := NumberText(e.port);
    var address := e.host + ":" + port;
    NumberRoundTrip(e.port);
    PortRoundTrip(e.port);
    TrimmedStays(address);
    TrimmedStays(e.host);
    DigitsAreNot(port, ':');
    FindLastAt(e.host, ':', port);
    assert address[..|e.host|] == e.host && address[|e.host| + 1..] == port;
  }

  lemma EntryRoundTrip(e: Endpoint)
    requires IsEndpoint(e)
    ensures ParseEntry(Render(e)) == Some(e)
  {
    hide ParseUnsigned, ParseAddress, NumberText;
    var id, address := NumberText(e.id), e.host + ":" + NumberText(e.port);
    var token := Render(e);
    NumberRoundTrip(e.id);
    NumberRoundTrip(e.port);
    assert token == id + ['='] + address;
    TrimmedStays(token);
    DigitsAreNot(id, '=');
    FindAt(id, '=', address);
    assert token[..|id|] == id && token[|id| + 1..] == address;
    IdRoundTrip(e.id);
    AddressRoundTrip(e);
  }

  // ---------------------------------------------------------------------------
  // The whole list
  // ---------------------------------------------------------------------------

  /** The pieces between commas; nothing after a final comma. */
  function Entries(s: string): seq<string>
    decreases |s|
  {
    if s == "" then []
    else
      var comma := Find(s, ',');
      if comma.None? then [s] else [s[..comma.value]] + Entries(s[comma.value + 1..])
  }

  function ParseEntries(entries: seq<string>): Option<seq<Endpoint>> {
    if entries == [] then Some([])
    else
      var init, last := ParseEntries(entries[..|entries| - 1]), ParseEntry(entries[|entries| - 1]);
      if init.None? || last.None? then None else Some(init.value + [last.value])
  }

  /** Every number below the length is an identifier. */
  ghost predicate Contiguous(endpoints: seq<Endpoint>) {
    forall i: nat :: i < |endpoints| ==> HasId(endpoints, i)
  }

  ghost predicate HasId(endpoints: seq<Endpoint>, i: nat) {
    exists k :: 0 <= k < |endpoints| && endpoints[k].id == i
  }

  /** Exactly the specifications that are accepted. */
  ghost predicate Accepts(spec: string) {
    var s := Trim(spec);
    s != "" && ParseEntries(Entries(s)).Some? && Contiguous(ParseEntries(Entries(s)).value)
  }

  /** The same endpoints, each at the index that is its identifier. */
  ghost predicate IsById(sorted: seq<Endpoint>, endpoints: seq<Endpoint>) {
    && multiset(sorted) == multiset(endpoints)
    && forall i :: 0 <= i < |sorted| ==> sorted[i].id == i
  }

  predicate IdAtMost(a: Endpoint, b: Endpoint) { a.id <= b.id }

  lemma ByIdIsContiguous(sorted: seq<Endpoint>, endpoints: seq<Endpoint>)
    requires IsById(sorted, endpoints)
    ensures Contiguous(endpoints)
  {
    SameMultisetSameElements(sorted, endpoints);
    forall i: nat | i < |endpoints| ensures HasId(endpoints, i) {
      assert sorted[i] in endpoints;
      var k :| 0 <= k < |endpoints| && endpoints[k] == sorted[i];
    }
  }

  function Ids(endpoints: seq<Endpoint>): (ids: seq<nat>)
    ensures |ids| == |endpoints| && forall i :: 0 <= i < |ids| ==> ids[i] == endpoints[i].id
  {
    seq(|endpoints|, i requires 0 <= i < |endpoints| => endpoints[i].id)
  }

  /** A sorted list that covers 0 .. N-1 has identifier i at index i: no identifier below
      i can be after it, so the first i + 1 places hold all of 0 .. i. */
  lemma {:induction false} SortedContiguousIsById(sorted: seq<Endpoint>, endpoints: seq<Endpoint>)
    requires multiset(sorted) == multiset(endpoints) && SortedBy(sorted, IdAtMost) && Contiguous(endpoints)
    ensures IsById(sorted, endpoints)
  {
    SameMultisetSameElements(sorted, endpoints);
    var ids := Ids(sorted);
    forall i: nat | i < |sorted| ensures i in ids {
      assert HasId(endpoints, i);
      var k :| 0 <= k < |endpoints| && endpoints[k].id == i;
      assert endpoints[k] in sorted;
      var j :| 0 <= j < |sorted| && sorted[j] == endpoints[k];
      assert ids[j] == i;
    }
    assert forall i, j :: 0 <= i < j < |ids| ==> ids[i] <= ids[j] by {
      forall i, j | 0 <= i < j < |ids| ensures ids[i] <= ids[j] {
        assert IdAtMost(sorted[i], sorted[j]);
      }
    }
    forall i | 0 <= i < |sorted| ensures sorted[i].id == i {
      SortedCoverAt(ids, i);
    }
  }

  lemma {:induction false} SortedCoverAt(ids: seq<nat>, i: nat)
    requires forall a, b :: 0 <= a < b < |ids| ==> ids[a] <= ids[b]
    requires (forall k: nat :: k < |ids| ==> k in ids) && i < |ids|
    ensures ids[i] == i
  {
    CoversAreDistinct(ids);
    AtLeastIndex(ids, i);
    AtMostIndex(ids, i);
  }

  /** Covering all numbers below the length leaves no room for a repetition. */
  lemma CoversAreDistinct(ids: seq<nat>)
    requires forall k: nat :: k < |ids| ==> k in ids
    ensures Distinct(ids)
  {
    var all := Elements(ids);
    assert Below(|ids|) <= all by {
      forall k: nat | k in Below(|ids|) ensures k in all {
        assert k in ids;
      }
    }
    SubsetSize(Below(|ids|), all);
    FewerWhenRepeated(ids);
  }

  lemma {:induction false} FewerWhenRepeated<T>(xs: seq<T>)
    ensures |Elements(xs)| <= |xs|
    ensures |Elements(xs)| == |xs| ==> Distinct(xs)
  {
    if xs != [] {
      var n := |xs| - 1;
      var init := xs[..n];
      FewerWhenRepeated(init);
      assert Elements(xs) == Elements(init) + {xs[n]} by {
        assert xs == init + [xs[n]];
      }
      if xs[n] in init {
        assert Elements(xs) == Elements(init);
      }
    }
  }

  lemma {:induction false} AtLeastIndex(ids: seq<nat>, i: nat)
    requires Distinct(ids) && (forall a, b :: 0 <= a < b < |ids| ==> ids[a] <= ids[b]) && i < |ids|
    ensures ids[i] >= i
  {
    if i > 0 {
      AtLeastIndex(ids, i - 1);
      assert ids[i - 1] != ids[i];
    }
  }

  lemma {:induction false} AtMostIndex(ids: seq<nat>, i: nat)
    requires Distinct(ids) && (forall a, b :: 0 <= a < b < |ids| ==> ids[a] <= ids[b]) && i < |ids|
    requires forall k: nat :: k < |ids| ==> k in ids
    ensures ids[i] <= i
  {
    if ids[i] > i {
      // i itself must then be before index i, where only smaller numbers can be
      assert i in ids;
      var j :| 0 <= j < |ids| && ids[j] == i;
      AtLeastIndex(ids, j);
      if j < i { AtMostIndex(ids, j); }
    }
  }

  /** Cutting off the first entry of what is left. */
  lemma EntriesFrom(s: string, start: nat, comma: Option<nat>, entry: string, next: nat)
    requires start < |s| && comma == Find(s[start..], ',')
    requires comma.None? ==> entry == s[start..] && next == |s|
    requires comma.Some? ==> entry == s[start..][..comma.value] && next == start + comma.value + 1
    ensures next <= |s| && Entries(s[start..]) == [entry] + Entries(s[next..])
  {
    if comma.Some? {
      assert s[start..][comma.value + 1..] == s[next..];
    } else {
      assert s[next..] == "";
    }
  }

  /** The scanning loop. */
  method ParseEach(s: string) returns (parsed: Option<seq<Endpoint>>)
    ensures parsed == ParseEntries(Entries(s))
  {
    hide ParseEntry, ParseEntries, Entries;
    var endpoints: seq<Endpoint> := [];
    ghost var seen: seq<string> := [];
    var start := 0;
    NoEntries();
    assert s[0..] == s;
    while start < |s|
      invariant 0 <= start <= |s|
      invariant Entries(s) == seen + Entries(s[start..])
      invariant ParseEntries(seen) == Some(endpoints)
    {
      var comma := Find(s[start..], ',');
      var entry := if comma.None? then s[start..] else s[start..][..comma.value];
      var next := if comma.None? then |s| else start + comma.value + 1;
      EntriesFrom(s, start, comma, entry, next);
      EntriesSnoc(seen, entry);
      assert Entries(s) == (seen + [entry]) + Entries(s[next..]);
      var endpoint := ParseEntry(entry);
      if endpoint.None? {
        OneBadEntry(seen + [entry], Entries(s[next..]));
        return None;
      }
      endpoints := endpoints + [endpoint.value];
      seen := seen + [entry];
      start := next;
    }
    assert s[start..] == "" && seen == Entries(s);
    parsed := Some(endpoints);
  }

  lemma NoEntries()
    ensures Entries("") == [] && ParseEntries([]) == Some([])
  {
  }

  method SortAndCheck(endpoints: seq<Endpoint>) returns (result: Option<seq<Endpoint>>)
    ensures result.Some? <==> Contiguous(endpoints)
    ensures result.Some? ==> IsById(result.value, endpoints)
  {
    hide Contiguous;
    var sorted := Sort(endpoints, IdAtMost);
    for i := 0 to |sorted|
      invariant forall k :: 0 <= k < i ==> sorted[k].id == k
    {
      if Contiguous(endpoints) { SortedContiguousIsById(sorted, endpoints); }
      if sorted[i].id != i {
        return None;
      }
    }
    ByIdIsContiguous(sorted, endpoints);
    result := Some(sorted);
  }

  method ParsePeerTopology(spec: string) returns (result: Option<seq<Endpoint>>)
    ensures result.Some? <==> Accepts(spec)
    ensures result.Some? ==> IsById(result.value, ParseEntries(Entries(Trim(spec))).value)
  {
    hide ParseEntries, Entries, Trim, Contiguous, IsById;
    var s := TrimLoop(spec);
    if s == "" {
      return None;
    }
    var endpoints := ParseEach(s);
    if endpoints.None? {
      return None;
    }
    result := SortAndCheck(endpoints.value);
  }

  lemma EntriesSnoc(seen: seq<string>, entry: string)
    ensures ParseEntries(seen + [entry])
         == if ParseEntries(seen).None? || ParseEntry(entry).None? then None
            else Some(ParseEntries(seen).value + [ParseEntry(entry).value])
  {
    assert (seen + [entry])[..|seen|] == seen;
  }

  lemma {:induction false} OneBadEntry(bad: seq<string>, rest: seq<string>)
    requires ParseEntries(bad).None?
    ensures ParseEntries(bad + rest).None?
    decreases |rest|
  {
    if rest == [] {
      assert bad + rest == bad;
    } else {
      OneBadEntry(bad, rest[..|rest| - 1]);
      assert (bad + rest)[..|bad + rest| - 1] == bad + rest[..|rest| - 1];
    }
  }

  /** An accepted specification yields legal endpoints with identifiers 0 .. N-1 in order. */
  method AcceptedIsLegal(spec: string) returns (result: Option<seq<Endpoint>>)
    ensures result.Some? <==> Accepts(spec)
    ensures result.Some? ==>
              forall i :: 0 <= i < |result.value| ==> result.value[i].id == i && IsEndpoint(result.value[i])
  {
    result := ParsePeerTopology(spec);
    if result.Some? {
      var endpoints := ParseEntries(Entries(Trim(spec))).value;
      AllParsedAreLegal(Entries(Trim(spec)));
      SameMultisetSameElements(result.value, endpoints);
      forall i | 0 <= i < |result.value| ensures IsEndpoint(result.value[i]) {
        assert result.value[i] in endpoints;
      }
    }
  }

  lemma {:induction false} AllParsedAreLegal(entries: seq<string>)
    requires ParseEntries(entries).Some?
    ensures forall e :: e in ParseEntries(entries).value ==> IsEndpoint(e)
  {
    if entries != [] {
      AllParsedAreLegal(entries[..|entries| - 1]);
      ParsedIsLegal(entries[|entries| - 1]);
    }
  }

  // ---------------------------------------------------------------------------
  // Round trip
  // ---------------------------------------------------------------------------

  function RenderAll(endpoints: seq<Endpoint>): string
    requires endpoints != []
  {
    if |endpoints| == 1 then Render(endpoints[0]) else Render(endpoints[0]) + "," + RenderAll(endpoints[1..])
  }

  predicate NoSpaceEnds(s: string) {
    s != "" && !IsSpace(s[0]) && !IsSpace(s[|s| - 1])
  }

  lemma RenderedEntry(e: Endpoint)
    requires IsEndpoint(e)
    ensures NoSpaceEnds(Render(e)) && ',' !in Render(e)
  {
    hide NumberText;
    NumberRoundTrip(e.id);
    NumberRoundTrip(e.port);
    DigitsAreNot(NumberText(e.id), ',');
    DigitsAreNot(NumberText(e.port), ',');
  }

  lemma EntriesHead(a: string, b: string)
    requires ',' !in a
    ensures Entries(a + [','] + b) == [a] + Entries(b)
  {
    var s := a + [','] + b;
    FindAt(a, ',', b);
    assert s[..|a|] == a && s[|a| + 1..] == b;
  }

  lemma EntriesOne(a: string)
    requires ',' !in a && a != ""
    ensures Entries(a) == [a]
  {
  }

  lemma {:induction false} EntriesRoundTrip(endpoints: seq<Endpoint>)
    requires endpoints != [] && forall e :: e in endpoints ==> IsEndpoint(e)
    ensures NoSpaceEnds(RenderAll(endpoints))
    ensures |Entries(RenderAll(endpoints))| == |endpoints|
    ensures forall i :: 0 <= i < |endpoints| ==> Entries(RenderAll(endpoints))[i] == Render(endpoints[i])
    decreases |endpoints|
  {
    hide Render, IsEndpoint, Entries;
    var first := Render(endpoints[0]);
    RenderedEntry(endpoints[0]);
    if |endpoints| > 1 {
      var rest := RenderAll(endpoints[1..]);
      EntriesRoundTrip(endpoints[1..]);
      assert RenderAll(endpoints) == first + [','] + rest;
      EntriesHead(first, rest);
    } else {
      EntriesOne(first);
    }
  }

  lemma {:induction false} ParsedRendering(entries: seq<string>, endpoints: seq<Endpoint>)
    requires |entries| == |endpoints| && forall e :: e in endpoints ==> IsEndpoint(e)
    requires forall i :: 0 <= i < |endpoints| ==> entries[i] == Render(endpoints[i])
    ensures ParseEntries(entries) == Some(endpoints)
  {
    hide Render, IsEndpoint, ParseEntry;
    if entries != [] {
      var n := |entries| - 1;
      ParsedRendering(entries[..n], endpoints[..n]);
      EntryRoundTrip(endpoints[n]);
      assert endpoints == endpoints[..n] + [endpoints[n]];
    }
  }

  /** Any legal endpoints with identifiers 0 .. N-1, written in any order, parse back to
      the same endpoints in identifier order. */
  method RenderThenParse(endpoints: seq<Endpoint>) returns (sorted: seq<Endpoint>)
    requires endpoints != [] && Contiguous(endpoints) && forall e :: e in endpoints ==> IsEndpoint(e)
    ensures Accepts(RenderAll(endpoints)) && IsById(sorted, endpoints)
  {
    RoundTripAccepted(endpoints);
    var result := ParsePeerTopology(RenderAll(endpoints));
    sorted := result.value;
  }

  lemma RoundTripAccepted(endpoints: seq<Endpoint>)
    requires endpoints != [] && Contiguous(endpoints) && forall e :: e in endpoints ==> IsEndpoint(e)
    ensures Accepts(RenderAll(endpoints))
    ensures ParseEntries(Entries(Trim(RenderAll(endpoints)))) == Some(endpoints)
  {
    hide Render, IsEndpoint;
    EntriesRoundTrip(endpoints);
    TrimmedStays(RenderAll(endpoints));
    ParsedRendering(Entries(RenderAll(endpoints)), endpoints);
  }

  // ---------------------------------------------------------------------------
  // Two liberties the parser takes
  // ---------------------------------------------------------------------------

  /** One trailing comma changes nothing. */
  lemma {:induction false} TrailingCommaIsIgnored(s: string)
    requires s != "" && s[|s| - 1] != ','
    ensures Entries(s + ",") == Entries(s)
    decreases |s|
  {
    var comma := Find(s, ',');
    if comma.None? {
      EntriesOne(s);
      EntriesHead(s, "");
      assert s + [','] + "" == s + ",";
    } else {
      var first, rest := s[..comma.value], s[comma.value + 1..];
      assert s == first + [','] + rest && s + "," == first + [','] + (rest + ",");
      assert rest != "" && rest[|rest| - 1] == s[|s| - 1];
      EntriesHead(first, rest);
      EntriesHead(first, rest + ",");
      TrailingCommaIsIgnored(rest);
    }
  }

  /** A negative identifier is accepted and stands for its complement modulo 2^64. */
  lemma NegativeIdWraps(n: nat)
    requires 1 <= n < ULONG_RANGE
    ensures ParseUnsigned("-" + NumberText(n)) == Some(ULONG_RANGE - n)
  {
    NumberRoundTrip(n);
    assert ("-" + NumberText(n))[1..] == NumberText(n);
  }
}
