/** systemd-networkd profiles: what is rendered is what is parsed. */
module NetworkdProfile {
  import opened Faults
  import opened Text

  datatype Profile = Profile(method_: string, address: string, gateway: string, dns: seq<string>)

  const EMPTY := Profile("", "", "", [])

  datatype Key = Dhcp | Address | Gateway | Dns | AcceptRa | Name

  function NameOf(key: Key): string {
    match key
    case Dhcp => "DHCP"
    case Address => "Address"
    case Gateway => "Gateway"
    case Dns => "DNS"
    case AcceptRa => "IPv6AcceptRA"
    case Name => "Name"
  }

  /** The keys the parser knows, in upper or lower case. */
  function KeyOf(name: string): Option<Key> {
    if EqualFold(name, NameOf(Dhcp)) then Some(Dhcp)
    else if EqualFold(name, NameOf(Address)) then Some(Address)
    else if EqualFold(name, NameOf(Gateway)) then Some(Gateway)
    else if EqualFold(name, NameOf(Dns)) then Some(Dns)
    else None
  }

  // ------------------------------------------------------------------- parsing

  datatype Reading = Reading(inNetwork: bool, profile: Profile)

  function Assign(key: Key, value: string, p: Profile): Profile {
    match key
    case Dhcp => if value == "yes" || value == "ipv4" then p.(method_ := "dhcp") else p
    case Address =>
      p.(address := if p.address == "" then value else p.address,
         method_ := if p.method_ == "" then "static" else p.method_)
    case Gateway => p.(gateway := value)
    case Dns => if value != "" then p.(dns := p.dns + [value]) else p
    case _ => p
  }

  predicate Comment(line: string) {
    line == "" || HasPrefix(line, "#") || HasPrefix(line, ";")
  }

  function Step(raw: string, r: Reading): Reading {
    var line := Trim(raw);
    if Comment(line) then r
    else if HasPrefix(line, "[") && HasSuffix(line, "]") then r.(inNetwork := EqualFold(line, "[Network]"))
    else if !r.inNetwork then r
    else match IndexOf(line, '=')
      case None => r
      case Some(at) =>
        match KeyOf(Trim(line[..at]))
        case None => r
        case Some(key) => r.(profile := Assign(key, Trim(line[at + 1..]), r.profile))
  }

  function Run(lines: seq<string>, r: Reading): Reading {
    if lines == [] then r else Run(lines[1..], Step(lines[0], r))
  }

  /** parseNetworkdProfile. */
  method Parse(content: string) returns (p: Profile)
    ensures p == Run(Lines(content), Reading(false, EMPTY)).profile
  {
    var lines, r := Lines(content), Reading(false, EMPTY);
    assert lines[0..] == lines;
    for i := 0 to |lines|
      invariant Run(lines, Reading(false, EMPTY)) == Run(lines[i..], r)
    {
      assert lines[i..][1..] == lines[i + 1..];
      r := Step(lines[i], r);
    }
    p := r.profile;
  }

  // ------------------------------------------------------ what a file means

  lemma {:induction false} RunSplits(a: seq<string>, b: seq<string>, r: Reading)
    ensures Run(a + b, r) == Run(b, Run(a, r))
  {
    if a == [] {
      assert a + b == b;
    } else {
      assert (a + b)[1..] == a[1..] + b;
      RunSplits(a[1..], b, Step(a[0], r));
    }
  }

  datatype Item = Item(key: Key, value: string)

  predicate Header(line: string) {
    var t := Trim(line);
    !Comment(t) && HasPrefix(t, "[") && HasSuffix(t, "]")
  }

  /** The field that a line gives, if it gives one that counts. */
  function ItemOf(line: string): Option<Item> {
    var t := Trim(line);
    if Comment(t) || Header(line) then None
    else match IndexOf(t, '=')
      case None => None
      case Some(at) =>
        match KeyOf(Trim(t[..at]))
        case None => None
        case Some(key) => Some(Item(key, Trim(t[at + 1..])))
  }

  /** What stands below the last header, and that is the one of a network section. */
  predicate InNetwork(lines: seq<string>) {
    lines != [] &&
    var last := lines[|lines| - 1];
    if Header(last) then EqualFold(Trim(last), "[Network]") else InNetwork(lines[..|lines| - 1])
  }

  /** The fields of all network sections, in their order. */
  function ItemsOf(lines: seq<string>): seq<Item> {
    if lines == [] then []
    else
      var above, item := lines[..|lines| - 1], ItemOf(lines[|lines| - 1]);
      ItemsOf(above) + if item.Some? && InNetwork(above) then [item.value] else []
  }

  /** The values of one field, without the empty ones. */
  function Values(items: seq<Item>, key: Key): seq<string> {
    if items == [] then []
    else
      var last := items[|items| - 1];
      Values(items[..|items| - 1], key) + if last.key == key && last.value != "" then [last.value] else []
  }

  function LastValue(items: seq<Item>, key: Key): string {
    if items == [] then ""
    else if items[|items| - 1].key == key then items[|items| - 1].value
    else LastValue(items[..|items| - 1], key)
  }

  predicate UsesDhcp(items: seq<Item>) {
    exists i :: 0 <= i < |items| && items[i].key.Dhcp? && items[i].value in {"yes", "ipv4"}
  }

  predicate HasAddress(items: seq<Item>) {
    exists i :: 0 <= i < |items| && items[i].key.Address?
  }

  /** A profile read without any state: DHCP before a static address, the first of several
      addresses, the last gateway, all name servers. */
  function ProfileOf(items: seq<Item>): Profile {
    var addresses := Values(items, Address);
    Profile(if UsesDhcp(items) then "dhcp" else if HasAddress(items) then "static" else "",
            if addresses == [] then "" else addresses[0], LastValue(items, Gateway), Values(items, Dns))
  }

  lemma StepMeans(line: string, r: Reading)
    ensures Step(line, r) ==
            if Header(line) then r.(inNetwork := EqualFold(Trim(line), "[Network]"))
            else if ItemOf(line).None? || !r.inNetwork then r
            else r.(profile := Assign(ItemOf(line).value.key, ItemOf(line).value.value, r.profile))
  {
  }

  lemma MethodMore(items: seq<Item>, item: Item)
    ensures UsesDhcp(items + [item]) <==> UsesDhcp(items) || (item.key.Dhcp? && item.value in {"yes", "ipv4"})
    ensures HasAddress(items + [item]) <==> HasAddress(items) || item.key.Address?
  {
    var all := items + [item];
    assert all[|items|] == item && forall i :: 0 <= i < |items| ==> all[i] == items[i];
  }

  lemma ValuesMore(items: seq<Item>, item: Item, key: Key)
    ensures Values(items + [item], key) ==
            if item.key == key && item.value != "" then Values(items, key) + [item.value] else Values(items, key)
    ensures LastValue(items + [item], key) == if item.key == key then item.value else LastValue(items, key)
  {
    var all := items + [item];
    assert all[..|all| - 1] == items && all[|all| - 1] == item && all != [];
  }

  lemma {:induction false} ValuesAreNotEmpty(items: seq<Item>, key: Key)
    ensures "" !in Values(items, key)
  {
    if items != [] {
      ValuesAreNotEmpty(items[..|items| - 1], key);
    }
  }

  lemma ItemMore(items: seq<Item>, item: Item)
    ensures ProfileOf(items + [item]) == Assign(item.key, item.value, ProfileOf(items))
  {
    MethodMore(items, item);
    ValuesMore(items, item, Address);
    ValuesMore(items, item, Gateway);
    ValuesMore(items, item, Dns);
    ValuesAreNotEmpty(items, Address);
  }

  lemma {:induction false} RunMeans(lines: seq<string>)
    ensures Run(lines, Reading(false, EMPTY)) == Reading(InNetwork(lines), ProfileOf(ItemsOf(lines)))
  {
    if lines != [] {
      var above, line := lines[..|lines| - 1], lines[|lines| - 1];
      assert lines == above + [line];
      RunMeans(above);
      RunSplits(above, [line], Reading(false, EMPTY));
      assert [line][1..] == [];
      StepMeans(line, Run(above, Reading(false, EMPTY)));
      if ItemOf(line).Some? && InNetwork(above) {
        ItemMore(ItemsOf(above), ItemOf(line).value);
      } else {
        assert ItemsOf(above) + [] == ItemsOf(above);
      }
    }
  }

  /** What the parser makes of any file whatever. */
  lemma FileMeans(content: string)
    ensures Run(Lines(content), Reading(false, EMPTY)).profile == ProfileOf(ItemsOf(Lines(content)))
  {
    RunMeans(Lines(content));
  }

  // ------------------------------------------------------------------ rendering

  function Field(key: Key, value: string): string {
    NameOf(key) + "=" + value
  }

  /** How the fields are written. */
  lemma WrittenAs(value: string)
    ensures Field(Dhcp, value) == "DHCP=" + value && Field(Address, value) == "Address=" + value
    ensures Field(Gateway, value) == "Gateway=" + value && Field(Dns, value) == "DNS=" + value
    ensures Field(AcceptRa, value) == "IPv6AcceptRA=" + value && Field(Name, value) == "Name=" + value
  {
    assert "DHCP" + "=" == "DHCP=" && "Address" + "=" == "Address=" && "Gateway" + "=" == "Gateway=";
    assert "DNS" + "=" == "DNS=" && "IPv6AcceptRA" + "=" == "IPv6AcceptRA=" && "Name" + "=" == "Name=";
  }

  function DnsLines(dns: seq<string>): seq<string> {
    if dns == [] then [] else [Field(Dns, dns[0])] + DnsLines(dns[1..])
  }

  function Settings(p: Profile): seq<string> {
    if p.method_ == "dhcp" then [Field(Dhcp, "ipv4"), Field(AcceptRa, "yes")]
    else if p.gateway != "" then [Field(Address, p.address), Field(Gateway, p.gateway), Field(AcceptRa, "yes")]
    else [Field(Address, p.address), Field(AcceptRa, "yes")]
  }

  function RenderedLines(iface: string, p: Profile): seq<string> {
    Heading(iface) + Settings(p) + DnsLines(p.dns)
  }

  function Heading(iface: string): seq<string> {
    ["[Match]", Field(Name, iface), "", "[Network]"]
  }

  /** renderNetworkdProfile. */
  method Render(iface: string, p: Profile) returns (b: string)
    ensures b == Terminated(RenderedLines(iface, p))
  {
    b := RenderHeading(iface);
    b := RenderSettings(b, Heading(iface), p);
    b := RenderDns(b, Heading(iface) + Settings(p), p.dns);
  }

  method RenderHeading(iface: string) returns (b: string)
    ensures b == Terminated(Heading(iface))
  {
    ghost var lines := ["[Match]"];
    b := WriteLine("", "", [], "[Match]");
    b := WriteLine(b, "", lines, Field(Name, iface));
    lines := lines + [Field(Name, iface)];
    b := WriteLine(b, "", lines, "");
    lines := lines + [""];
    b := WriteLine(b, "", lines, "[Network]");
    assert lines + ["[Network]"] == Heading(iface);
  }

  method RenderSettings(b: string, ghost lines: seq<string>, p: Profile) returns (out: string)
    requires b == Terminated(lines)
    ensures out == Terminated(lines + Settings(p))
  {
    ghost var more := lines;
    if p.method_ == "dhcp" {
      out := WriteLine(b, "", more, Field(Dhcp, "ipv4"));
      more := more + [Field(Dhcp, "ipv4")];
    } else {
      out := WriteLine(b, "", more, Field(Address, p.address));
      more := more + [Field(Address, p.address)];
      if p.gateway != "" {
        out := WriteLine(out, "", more, Field(Gateway, p.gateway));
        more := more + [Field(Gateway, p.gateway)];
      }
    }
    out := WriteLine(out, "", more, Field(AcceptRa, "yes"));
    assert more + [Field(AcceptRa, "yes")] == lines + Settings(p);
  }

  method RenderDns(b: string, ghost lines: seq<string>, dns: seq<string>) returns (out: string)
    requires b == Terminated(lines)
    ensures out == Terminated(lines + DnsLines(dns))
  {
    out := b;
    ghost var more, tail, whole := lines, DnsLines(dns), lines + DnsLines(dns);
    assert dns[0..] == dns;
    for i := 0 to |dns|
      invariant out == Terminated(more) && tail == DnsLines(dns[i..]) && more + tail == whole
    {
      assert dns[i..][1..] == dns[i + 1..];
      ghost var field := Field(Dns, dns[i]);
      out := WriteLine(out, "", more, Field(Dns, dns[i]));
      Regroup(more, [field], DnsLines(dns[i + 1..]));
      more, tail := more + [field], DnsLines(dns[i + 1..]);
    }
    assert dns[|dns|..] == [] && more + [] == more;
  }

  // ----------------------------------------------------------------- round trip

  /** A value that survives being written on a line of its own. */
  predicate Value(s: string) {
    Trim(s) == s && '\n' !in s
  }

  predicate Plain(iface: string, p: Profile) {
    && '\n' !in iface && (p.method_ == "dhcp" || p.method_ == "static")
    && Value(p.address) && Value(p.gateway)
    && forall k :: 0 <= k < |p.dns| ==> Value(p.dns[k]) && p.dns[k] != ""
  }

  lemma NamesAreNames(key: Key)
    ensures NameOf(key) != "" && '=' !in NameOf(key) && '\n' !in NameOf(key)
    ensures !IsSpace(NameOf(key)[0]) && !IsSpace(NameOf(key)[|NameOf(key)| - 1]) && NameOf(key)[0] !in "#;["
  {
  }

  lemma NamesDiffer(a: Key, b: Key)
    ensures EqualFold(NameOf(a), NameOf(b)) <==> a == b
  {
    if EqualFold(NameOf(a), NameOf(b)) {
      assert |NameOf(a)| == |ToLower(NameOf(a))| == |NameOf(b)|;
      assert Lower(NameOf(a)[0]) == ToLower(NameOf(a))[0] == Lower(NameOf(b)[0]);
    }
  }

  lemma KeyFacts(key: Key)
    ensures KeyOf(NameOf(key)) == if key.AcceptRa? || key.Name? then None else Some(key)
  {
    NamesDiffer(key, Dhcp);
    NamesDiffer(key, Address);
    NamesDiffer(key, Gateway);
    NamesDiffer(key, Dns);
  }

  /** A plain "name=value" line, cut again. */
  lemma PlainLine(name: string, value: string)
    requires name != "" && '=' !in name && !IsSpace(name[0]) && !IsSpace(name[|name| - 1]) && name[0] !in "#;["
    requires Trim(value) == value
    ensures var line := name + "=" + value;
            && Trim(line) == line && !Comment(line) && !HasPrefix(line, "[")
            && IndexOf(line, '=') == Some(|name|) && line[..|name|] == name && line[|name| + 1..] == value
  {
    var line := name + "=" + value;
    assert line == name + ['='] + value && line[0] == name[0];
    assert Trim(line) == line by { assert value != "" ==> line[|line| - 1] == value[|value| - 1]; }
    IndexAfter(name, value, '=');
  }

  lemma NamedStep(name: string, value: string, r: Reading)
    requires name != "" && '=' !in name && !IsSpace(name[0]) && !IsSpace(name[|name| - 1]) && name[0] !in "#;["
    requires Trim(value) == value
    ensures Step(name + "=" + value, r) ==
            if !r.inNetwork || KeyOf(name).None? then r else r.(profile := Assign(KeyOf(name).value, value, r.profile))
  {
    PlainLine(name, value);
    assert Trim(name) == name;
  }

  /** One rendered field, parsed. */
  lemma FieldStep(key: Key, value: string, r: Reading)
    requires Trim(value) == value
    ensures Step(Field(key, value), r) == if r.inNetwork then r.(profile := Assign(key, value, r.profile)) else r
  {
    KeyFacts(key);
    NamesAreNames(key);
    NamedStep(NameOf(key), value, r);
  }

  /** A rendered field in front of other lines. */
  lemma RunField(key: Key, value: string, rest: seq<string>, p: Profile)
    requires Trim(value) == value
    ensures Run([Field(key, value)] + rest, Reading(true, p)) == Run(rest, Reading(true, Assign(key, value, p)))
  {
    FieldStep(key, value, Reading(true, p));
    RunFirst(Field(key, value), rest, Reading(true, p));
  }

  lemma RunFirst(line: string, rest: seq<string>, r: Reading)
    ensures Run([line] + rest, r) == Run(rest, Step(line, r))
  {
    assert ([line] + rest)[1..] == rest;
  }

  lemma {:induction false} DnsRun(dns: seq<string>, p: Profile)
    requires forall k :: 0 <= k < |dns| ==> Value(dns[k]) && dns[k] != ""
    ensures Run(DnsLines(dns), Reading(true, p)) == Reading(true, p.(dns := p.dns + dns))
  {
    if dns == [] {
      assert p.dns + dns == p.dns;
    } else {
      RunField(Dns, dns[0], DnsLines(dns[1..]), p);
      DnsRun(dns[1..], p.(dns := p.dns + [dns[0]]));
      GroupServers(p.dns, dns);
    }
  }

  lemma GroupServers(a: seq<string>, b: seq<string>)
    requires b != []
    ensures (a + [b[0]]) + b[1..] == a + b
  {
    assert b == [b[0]] + b[1..];
  }

  lemma HeadingRun(iface: string)
    ensures Run(Heading(iface), Reading(false, EMPTY)) == Reading(true, EMPTY)
  {
    var r, h := Reading(false, EMPTY), Heading(iface);
    HeaderSteps(r);
    MatchLine(iface, r);
    assert h[1..] == [h[1], h[2], h[3]] && h[1..][1..] == [h[2], h[3]] && h[1..][1..][1..] == [h[3]]
      && [h[3]][1..] == [];
    assert Run([h[3]], r) == Run([], Reading(true, EMPTY));
    assert Run([h[2], h[3]], r) == Run([h[3]], r) by { assert [h[2], h[3]][1..] == [h[3]]; }
    assert Run([h[1], h[2], h[3]], r) == Run([h[2], h[3]], r) by { assert [h[1], h[2], h[3]][1..] == [h[2], h[3]]; }
  }

  lemma HeaderSteps(r: Reading)
    ensures Step("[Match]", r) == r.(inNetwork := false) && Step("[Network]", r) == r.(inNetwork := true)
    ensures Step("", r) == r
  {
    assert Trim("[Match]") == "[Match]" && Trim("[Network]") == "[Network]";
    assert |ToLower("[Match]")| == 7 && |ToLower("[Network]")| == 9;
  }

  /** The line of the [Match] section is outside of what is parsed. */
  lemma MatchLine(iface: string, r: Reading)
    requires !r.inNetwork
    ensures Step(Field(Name, iface), r) == r
  {
    var line := Field(Name, iface);
    assert line[0] == 'N' && line[3] == 'e';
    StartsOrdinary(line);
  }

  lemma {:induction false} StartsOrdinary(s: string)
    requires s != "" && !IsSpace(s[0])
    ensures Trim(s) != "" && Trim(s)[0] == s[0]
  {
    if IsSpace(s[|s| - 1]) {
      StartsOrdinary(s[..|s| - 1]);
    }
  }

  lemma SettingsRun(p: Profile)
    requires p.method_ == "dhcp" || p.method_ == "static"
    requires Value(p.address) && Value(p.gateway)
    ensures Run(Settings(p), Reading(true, EMPTY)) ==
            Reading(true, if p.method_ == "dhcp" then Profile("dhcp", "", "", []) else p.(dns := []))
  {
    var ra := [Field(AcceptRa, "yes")];
    if p.method_ == "dhcp" {
      var a := Profile("dhcp", "", "", []);
      assert Settings(p) == [Field(Dhcp, "ipv4")] + ra;
      RunField(Dhcp, "ipv4", ra, EMPTY);
      RunLast(a);
    } else {
      var a, b := Profile("static", p.address, "", []), Profile("static", p.address, p.gateway, []);
      var gateway := if p.gateway != "" then [Field(Gateway, p.gateway)] else [];
      assert Settings(p) == [Field(Address, p.address)] + (gateway + ra);
      RunField(Address, p.address, gateway + ra, EMPTY);
      if p.gateway != "" {
        RunField(Gateway, p.gateway, ra, a);
      } else {
        assert gateway + ra == ra;
      }
      RunLast(b);
    }
  }

  lemma RunLast(p: Profile)
    ensures Run([Field(AcceptRa, "yes")], Reading(true, p)) == Reading(true, p)
  {
    YesIsTrimmed();
    RunField(AcceptRa, "yes", [], p);
    AloneIsFirst(Field(AcceptRa, "yes"));
  }

  lemma YesIsTrimmed()
    ensures Trim("yes") == "yes"
  {
  }

  lemma AloneIsFirst(line: string)
    ensures [line] + [] == [line]
  {
  }

  /** What a profile is after being written and read: DHCP has no address of its own. */
  function Canonical(p: Profile): Profile {
    if p.method_ == "dhcp" then p.(address := "", gateway := "") else p
  }

  /** Parsing what was rendered gives the method and the servers back, and for a static profile
      the address and the gateway. */
  lemma RoundTrip(iface: string, p: Profile)
    requires Plain(iface, p)
    ensures Run(Lines(Terminated(RenderedLines(iface, p))), Reading(false, EMPTY)).profile == Canonical(p)
  {
    var start, lines := Reading(false, EMPTY), RenderedLines(iface, p);
    RenderedOnLines(iface, p);
    LinesOfTerminated(lines);
    RunSplits(lines, [""], start);
    RunSplits(Heading(iface) + Settings(p), DnsLines(p.dns), start);
    RunSplits(Heading(iface), Settings(p), start);
    HeadingRun(iface);
    SettingsRun(p);
    DnsRun(p.dns, Run(Settings(p), Reading(true, EMPTY)).profile);
    assert [] + p.dns == p.dns;
    HeaderSteps(Run(lines, start));
    assert [""][1..] == [];
  }

  lemma RenderedOnLines(iface: string, p: Profile)
    requires Plain(iface, p)
    ensures forall k :: 0 <= k < |RenderedLines(iface, p)| ==> '\n' !in RenderedLines(iface, p)[k]
  {
    forall key: Key ensures '\n' !in NameOf(key) { NamesAreNames(key); }
    DnsOnLines(p.dns);
  }

  lemma {:induction false} DnsOnLines(dns: seq<string>)
    requires forall k :: 0 <= k < |dns| ==> '\n' !in dns[k]
    ensures forall k :: 0 <= k < |DnsLines(dns)| ==> '\n' !in DnsLines(dns)[k]
  {
    if dns != [] {
      NamesAreNames(Dns);
      DnsOnLines(dns[1..]);
    }
  }
}
