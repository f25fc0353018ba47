/** The trace-name encoding of `TraceMeWrapper` and the search for the
    profiler extension of a PJRT plugin, from the Python profiler bindings.

    A Python value is either a `bool` or any other object, which is
    encoded by its `str()`; keyword arguments are the ordered list of
    key/value pairs a Python `dict` iterates over. */
module Profiler {
  import opened Status

  /** A Python object handed to `TraceMe`: a `bool`, or another object given
      by the text `str()` returns for it. */
  datatype PyObject = PyBool(b: bool) | PyOther(str: string)

  datatype Kwarg = Kwarg(key: string, value: PyObject)

  /** `EncodePyObject`: `True` is "1", `False` is "0", anything else is its
      `str()`. */
  function EncodePyObject(o: PyObject): (r: string)
    ensures o.PyBool? ==> r == (if o.b then "1" else "0")
    ensures o.PyOther? ==> r == o.str
  {
    match o
    case PyBool(b) => if b then "1" else "0"
    case PyOther(s) => s
  }

  /** A bool encodes to one digit, so it never contains a separator. */
  lemma BoolEncodingHasNoSeparator(b: bool)
    ensures |EncodePyObject(PyBool(b))| == 1
    ensures ',' !in EncodePyObject(PyBool(b)) && '=' !in EncodePyObject(PyBool(b)) && '#' !in EncodePyObject(PyBool(b))
  {
  }

  /** `key=value` for one keyword argument. */
  function Entry(kw: Kwarg): string {
    kw.key + "=" + EncodePyObject(kw.value)
  }

  function Entries(kwargs: seq<Kwarg>): (entries: seq<string>)
    ensures |entries| == |kwargs|
  {
    seq(|kwargs|, i requires 0 <= i < |kwargs| => Entry(kwargs[i]))
  }

  /** The parts joined with `sep` between consecutive parts. */
  function Join(parts: seq<string>, sep: char): string {
    if |parts| == 0 then ""
    else if |parts| == 1 then parts[0]
    else parts[0] + [sep] + Join(parts[1..], sep)
  }

  /** Each part followed by a comma: what the `StrAppend` loop writes. */
  function Terminated(parts: seq<string>): string {
    if parts == [] then "" else parts[0] + "," + Terminated(parts[1..])
  }

  /** The metadata `AppendMetadata` appends: `#k1=v1,k2=v2,...#`. */
  function Metadata(kwargs: seq<Kwarg>): string {
    "#" + Join(Entries(kwargs), ',') + "#"
  }

  lemma {:induction false} TerminatedAppend(parts: seq<string>, p: string)
    ensures Terminated(parts + [p]) == Terminated(parts) + p + ","
  {
    if parts != [] {
      assert (parts + [p])[1..] == parts[1..] + [p];
      TerminatedAppend(parts[1..], p);
    }
  }

  /** Overwriting the last comma with `#` turns the terminated entries into
      the joined ones. */
  lemma {:induction false} TerminatedIsJoinedPlusComma(parts: seq<string>)
    requires parts != []
    ensures Terminated(parts) == Join(parts, ',') + ","
  {
    if |parts| > 1 {
      TerminatedIsJoinedPlusComma(parts[1..]);
    }
  }

  /** `TraceMeWrapper::AppendMetadata`: pushes `#`, appends `key=value,` per
      keyword argument in iteration order, then overwrites the last character
      with `#`. With no arguments that last character is the pushed `#`. */
  method AppendMetadata(name: string, kwargs: seq<Kwarg>) returns (r: string)
    ensures kwargs != [] ==> r == name + Metadata(kwargs)
    ensures kwargs == [] ==> r == name + "#"
    ensures |r| > |name| && r[..|name|] == name
  {
    r := name + "#";
    var i := 0;
    while i < |kwargs|
      invariant 0 <= i <= |kwargs|
      invariant r == name + "#" + Terminated(Entries(kwargs[..i]))
    {
      assert Entries(kwargs[..i + 1]) == Entries(kwargs[..i]) + [Entry(kwargs[i])];
      TerminatedAppend(Entries(kwargs[..i]), Entry(kwargs[i]));
      r := r + kwargs[i].key + "=" + EncodePyObject(kwargs[i].value) + ",";
      i := i + 1;
    }
    assert kwargs[..i] == kwargs;
    if kwargs != [] {
      TerminatedIsJoinedPlusComma(Entries(kwargs));
      assert r == name + "#" + Join(Entries(kwargs), ',') + ",";
    }
    r := r[|r| - 1 := '#'];
    if kwargs != [] {
      assert r == name + "#" + Join(Entries(kwargs), ',') + "#";
    }
  }

  /** The name the `TraceMeWrapper` constructor hands to `TraceMe`: the plain
      name without keyword arguments, else the name with its metadata. */
  method TraceMeName(name: string, kwargs: seq<Kwarg>) returns (r: string)
    ensures kwargs == [] ==> r == name
    ensures kwargs != [] ==> r == name + Metadata(kwargs)
  {
    r := name;
    if |kwargs| > 0 {
      r := AppendMetadata(r, kwargs);
    }
  }

  /** `TraceMeWrapper::SetMetadata`: the metadata handed to
      `TraceMe::AppendMetadata`, or nothing without keyword arguments. */
  method SetMetadata(kwargs: seq<Kwarg>) returns (appended: Option<string>)
    ensures kwargs == [] ==> appended == None
    ensures kwargs != [] ==> appended == Some(Metadata(kwargs))
  {
    appended := None;
    if |kwargs| > 0 {
      var metadata := AppendMetadata("", kwargs);
      assert "" + Metadata(kwargs) == Metadata(kwargs);
      appended := Some(metadata);
    }
  }

  // ---------------------------------------------------------------------
  // Reading the metadata back

  /** The index of the first `c` in `s`. */
  function IndexOf(s: string, c: char): (i: nat)
    requires c in s
    ensures i < |s| && s[i] == c && c !in s[..i]
  {
    if s[0] == c then 0 else 1 + IndexOf(s[1..], c)
  }

  /** `s` cut at every `sep`. */
  function Split(s: string, sep: char): (parts: seq<string>)
    ensures |parts| > 0
    decreases |s|
  {
    if sep !in s then [s]
    else
      var i := IndexOf(s, sep);
      [s[..i]] + Split(s[i + 1..], sep)
  }

  /** `part` cut at its first `=` into key and value. */
  function KeyValue(part: string): (string, string) {
    if '=' in part then
      var i := IndexOf(part, '=');
      (part[..i], part[i + 1..])
    else (part, "")
  }

  /** A reader for the metadata format: strips the enclosing `#`s, splits at
      the commas and each entry at its first `=`. */
  function DecodeMetadata(metadata: string): (r: Option<seq<(string, string)>>)
    ensures r.Some? ==> |metadata| >= 2 && metadata[0] == '#' && metadata[|metadata| - 1] == '#'
  {
    if |metadata| < 2 || metadata[0] != '#' || metadata[|metadata| - 1] != '#' then None
    else
      Some(KeyValues(Split(metadata[1..|metadata| - 1], ',')))
  }

  function KeyValues(parts: seq<string>): (pairs: seq<(string, string)>)
    ensures |pairs| == |parts|
    ensures forall i :: 0 <= i < |parts| ==> pairs[i] == KeyValue(parts[i])
  {
    seq(|parts|, i requires 0 <= i < |parts| => KeyValue(parts[i]))
  }

  /** The key and encoded value of each keyword argument, in order. */
  function Pairs(kwargs: seq<Kwarg>): (pairs: seq<(string, string)>)
    ensures |pairs| == |kwargs|
    ensures forall i :: 0 <= i < |kwargs| ==> pairs[i] == (kwargs[i].key, EncodePyObject(kwargs[i].value))
  {
    seq(|kwargs|, i requires 0 <= i < |kwargs| => (kwargs[i].key, EncodePyObject(kwargs[i].value)))
  }

  lemma {:induction false} SplitJoin(parts: seq<string>, sep: char)
    requires parts != []
    requires forall p :: p in parts ==> sep !in p
    ensures Split(Join(parts, sep), sep) == parts
  {
    if |parts| > 1 {
      var joined := Join(parts, sep);
      assert joined == parts[0] + [sep] + Join(parts[1..], sep);
      assert joined[|parts[0]|] == sep;
      assert joined[..|parts[0]|] == parts[0];
      assert sep !in joined[..|parts[0]|];
      assert IndexOf(joined, sep) == |parts[0]|;
      assert joined[|parts[0]| + 1..] == Join(parts[1..], sep);
      SplitJoin(parts[1..], sep);
    } else {
      assert Join(parts, sep) == parts[0];
    }
  }

  lemma KeyValueOfEntry(key: string, value: string)
    requires '=' !in key
    ensures KeyValue(key + "=" + value) == (key, value)
  {
    var part := key + "=" + value;
    assert part[|key|] == '=';
    assert part[..|key|] == key;
    assert IndexOf(part, '=') == |key|;
    assert part[|key| + 1..] == value;
  }

  /** Keys and values come back from the metadata in order, one pair per
      keyword argument, as long as no key holds `=` or `,` and no encoded
      value holds `,` (the format has no escaping). */
  lemma MetadataRoundTrip(kwargs: seq<Kwarg>)
    requires kwargs != []
    requires forall kw :: kw in kwargs ==> '=' !in kw.key && ',' !in kw.key && ',' !in EncodePyObject(kw.value)
    ensures DecodeMetadata(Metadata(kwargs)) == Some(Pairs(kwargs))
  {
    var entries := Entries(kwargs);
    EntriesHaveNoComma(kwargs);
    var metadata := Metadata(kwargs);
    assert metadata[1..|metadata| - 1] == Join(entries, ',');
    SplitJoin(entries, ',');
    KeyValuesOfEntries(kwargs);
  }

  lemma EntriesHaveNoComma(kwargs: seq<Kwarg>)
    requires forall kw :: kw in kwargs ==> ',' !in kw.key && ',' !in EncodePyObject(kw.value)
    ensures forall p :: p in Entries(kwargs) ==> ',' !in p
  {
    var entries := Entries(kwargs);
    forall p | p in entries ensures ',' !in p {
      var i :| 0 <= i < |entries| && entries[i] == p;
      assert kwargs[i] in kwargs;
    }
  }

  lemma KeyValuesOfEntries(kwargs: seq<Kwarg>)
    requires forall kw :: kw in kwargs ==> '=' !in kw.key
    ensures KeyValues(Entries(kwargs)) == Pairs(kwargs)
  {
    forall i | 0 <= i < |kwargs| ensures KeyValue(Entries(kwargs)[i]) == Pairs(kwargs)[i] {
      assert kwargs[i] in kwargs;
      KeyValueOfEntry(kwargs[i].key, EncodePyObject(kwargs[i].value));
    }
  }

  /** Keyword arguments whose values are all bools read back whenever no
      key holds `=` or `,`: a bool's encoding never holds a separator. */
  lemma BoolMetadataRoundTrip(kwargs: seq<Kwarg>)
    requires kwargs != []
    requires forall kw :: kw in kwargs ==> kw.value.PyBool? && '=' !in kw.key && ',' !in kw.key
    ensures DecodeMetadata(Metadata(kwargs)) == Some(Pairs(kwargs))
  {
    forall kw | kw in kwargs ensures ',' !in EncodePyObject(kw.value) {
      BoolEncodingHasNoSeparator(kw.value.b);
    }
    MetadataRoundTrip(kwargs);
  }

  /** Without escaping, a comma in a value reads as a separator: one
      argument whose value is "1,b=2" encodes like two arguments. */
  lemma CommaInValueIsAmbiguous()
    ensures Metadata([Kwarg("a", PyOther("1,b=2"))]) ==
            Metadata([Kwarg("a", PyOther("1")), Kwarg("b", PyOther("2"))])
  {
    var one := [Kwarg("a", PyOther("1,b=2"))];
    var two := [Kwarg("a", PyOther("1")), Kwarg("b", PyOther("2"))];
    assert Entry(one[0]) == "a=1,b=2";
    assert Entry(two[0]) == "a=1" && Entry(two[1]) == "b=2";
    assert Entries(one) == ["a=1,b=2"];
    assert Entries(two) == ["a=1", "b=2"];
    assert ["a=1", "b=2"][1..] == ["b=2"];
    assert Join(["a=1", "b=2"], ',') == "a=1" + [','] + "b=2";
  }

  // ---------------------------------------------------------------------
  // FindProfilerApi

  /** `PJRT_Extension_Type`. */
  datatype ExtensionType =
    | GpuCustomCall | ProfilerExtension | CustomPartitioner | Stream | Layouts | Ffi | MemoryDescriptions

  /** The address of a plugin's `PLUGIN_Profiler_Api`. */
  type ProfilerApi = nat

  /** One `PJRT_Extension_Base` of a plugin's extension chain. `profilerApi`
      is only read for a profiler extension (`PJRT_Profiler_Extension`).
      `chain` lists this extension and those after it, as (type, api)
      pairs; `Valid` ties it to the `next` links, which makes the chain
      finite and acyclic. */
  class Extension {
    const extensionType: ExtensionType
    const profilerApi: ProfilerApi
    const next: Extension?
    ghost const chain: seq<(ExtensionType, ProfilerApi)>

    ghost predicate Valid()
      decreases |chain|
    {
      && |chain| > 0
      && chain[0] == (extensionType, profilerApi)
      && (next == null ==> |chain| == 1)
      && (next != null ==> next.chain == chain[1..] && next.Valid())
    }

    constructor (extensionType: ExtensionType, profilerApi: ProfilerApi, next: Extension?)
      requires next != null ==> next.Valid()
      ensures Valid()
      ensures chain == [(extensionType, profilerApi)] + (if next == null then [] else next.chain)
    {
      this.extensionType := extensionType;
      this.profilerApi := profilerApi;
      this.next := next;
      this.chain := [(extensionType, profilerApi)] + (if next == null then [] else next.chain);
    }
  }

  /** The chain starting at `start` (empty for null). */
  ghost function Chain(start: Extension?): seq<(ExtensionType, ProfilerApi)> {
    if start == null then [] else start.chain
  }

  /** The api of the first profiler extension of `chain`, if there is one. */
  function FirstProfilerApi(chain: seq<(ExtensionType, ProfilerApi)>): (r: Option<ProfilerApi>)
    ensures r.None? <==> forall i :: 0 <= i < |chain| ==> chain[i].0 != ProfilerExtension
    ensures r.Some? ==> exists i :: 0 <= i < |chain| && chain[i] == (ProfilerExtension, r.value) &&
                                    forall j :: 0 <= j < i ==> chain[j].0 != ProfilerExtension
  {
    if chain == [] then None
    else if chain[0].0 == ProfilerExtension then Some(chain[0].1)
    else
      var rest := FirstProfilerApi(chain[1..]);
      assert forall i :: 1 <= i < |chain| ==> chain[i] == chain[1..][i - 1];
      rest
  }

  /** `FindProfilerApi`: follows `next` from the plugin's
      `extension_start` until an extension of profiler type, and returns its
      `profiler_api`; null (`None`) when the chain ends first. */
  method FindProfilerApi(extensionStart: Extension?) returns (r: Option<ProfilerApi>)
    requires extensionStart != null ==> extensionStart.Valid()
    ensures r == FirstProfilerApi(Chain(extensionStart))
  {
    var next := extensionStart;
    ghost var walked := 0;
    while next != null && next.extensionType != ProfilerExtension
      invariant 0 <= walked <= |Chain(extensionStart)|
      invariant next != null ==> next.Valid() && next.chain == Chain(extensionStart)[walked..]
      invariant next == null ==> walked == |Chain(extensionStart)|
      invariant FirstProfilerApi(Chain(extensionStart)) == FirstProfilerApi(Chain(extensionStart)[walked..])
      decreases |Chain(extensionStart)| - walked
    {
      assert Chain(extensionStart)[walked..][1..] == Chain(extensionStart)[walked + 1..];
      next := next.next;
      walked := walked + 1;
    }
    if next == null {
      return None;
    }
    return Some(next.profilerApi);
  }
}
