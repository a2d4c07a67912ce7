/** internal/store/filestore.go: the persistent list of destinations. Get hands out a slice that
    shares its backing array with the store, so that callers which edit it in place edit the store;
    slices are modelled as an array and a length. */
module Store {
  import opened Domain

  /** store.Destination */
  datatype Entry = Entry(id: UUID, name: string, url: string)

  const ZERO_ENTRY := Entry(ZERO_ID, "", "")

  // ----- Validation -----

  /** What url.Parse makes of a string; the parser itself is a parameter. */
  datatype ParsedURL = ParseFailure | URL(scheme: string, hostname: string)

  type Parser = string -> ParsedURL

  /** unicode.IsSpace */
  predicate IsSpace(c: char) {
    || '\t' <= c <= '\r' || c == ' ' || c == '\U{85}' || c == '\U{A0}' || c == '\U{1680}'
    || '\U{2000}' <= c <= '\U{200A}' || c == '\U{2028}' || c == '\U{2029}' || c == '\U{202F}'
    || c == '\U{205F}' || c == '\U{3000}'
  }

  /** strings.TrimSpace(s) == "" */
  predicate Blank(s: string) {
    forall i :: 0 <= i < |s| ==> IsSpace(s[i])
  }

  const NAME_EMPTY := "Name cannot be empty"
  const URL_INVALID := "URL is invalid"
  const URL_NOT_RTMP := "URL must be an RTMP URL"
  const URL_NO_HOST := "URL hostname must not be empty"
  const URL_DUPLICATE := "URL is a duplicate of another URL"

  /** The message for a URL on its own, if there is anything wrong with it. */
  function URLMessage(parse: Parser, url: string): Option<string> {
    match parse(url)
    case ParseFailure => Some(URL_INVALID)
    case URL(scheme, hostname) =>
      if scheme != "rtmp" then Some(URL_NOT_RTMP)
      else if Blank(hostname) then Some(URL_NO_HOST)
      else None
  }

  /** An rtmp URL with a host that is not blank. */
  predicate GoodURL(parse: Parser, url: string) {
    parse(url).URL? && parse(url).scheme == "rtmp" && !Blank(parse(url).hostname)
  }

  predicate DistinctURLs(ds: seq<Entry>) {
    forall i, j :: 0 <= i < j < |ds| ==> ds[i].url != ds[j].url
  }

  /** What a valid list is, said without counting. */
  predicate Valid(parse: Parser, ds: seq<Entry>) {
    && (forall i :: 0 <= i < |ds| ==> !Blank(ds[i].name) && GoodURL(parse, ds[i].url))
    && DistinctURLs(ds)
  }

  function NameMessages(ds: seq<Entry>): seq<string> {
    if ds == [] then []
    else NameMessages(ds[..|ds| - 1]) + (if Blank(ds[|ds| - 1].name) then [NAME_EMPTY] else [])
  }

  function URLMessages(parse: Parser, ds: seq<Entry>): seq<string> {
    if ds == [] then []
    else
      URLMessages(parse, ds[..|ds| - 1]) +
      (match URLMessage(parse, ds[|ds| - 1].url) case Some(m) => [m] case None => [])
  }

  function Field(name: string, messages: seq<string>): ValidationErrors {
    if messages == [] then map[] else map[name := messages]
  }

  const NAME := "name"
  const URL_FIELD := "url"

  /** The errors of a list: one message for each blank name, one for each bad URL, and one more if any
      URL occurs twice. */
  function Errors(parse: Parser, ds: seq<Entry>): ValidationErrors {
    Field(NAME, NameMessages(ds)) +
    Field(URL_FIELD, URLMessages(parse, ds) + (if DistinctURLs(ds) then [] else [URL_DUPLICATE]))
  }

  /** No errors exactly for a valid list. */
  lemma NoErrorsIffValid(parse: Parser, ds: seq<Entry>)
    ensures Errors(parse, ds) == map[] <==> Valid(parse, ds)
  {
    NamesEmptyIff(ds);
    URLsEmptyIff(parse, ds);
    var names := NameMessages(ds);
    var urls := URLMessages(parse, ds) + (if DistinctURLs(ds) then [] else [URL_DUPLICATE]);
    hide NameMessages, URLMessages, DistinctURLs, Blank, GoodURL;
    if names != [] {
      assert NAME in Field(NAME, names) && NAME in Errors(parse, ds);
    }
    if urls != [] {
      assert URL_FIELD in Field(URL_FIELD, urls) && URL_FIELD in Errors(parse, ds);
    }
  }

  lemma {:induction false} NamesEmptyIff(ds: seq<Entry>)
    ensures NameMessages(ds) == [] <==> forall i :: 0 <= i < |ds| ==> !Blank(ds[i].name)
  {
    if ds != [] {
      hide Blank;
      var init, last := ds[..|ds| - 1], |ds| - 1;
      NamesEmptyIff(init);
      assert ds == init + [ds[last]];
      assert NameMessages(ds) == [] <==> NameMessages(init) == [] && !Blank(ds[last].name);
      hide NameMessages;
    }
  }

  lemma {:induction false} URLsEmptyIff(parse: Parser, ds: seq<Entry>)
    ensures URLMessages(parse, ds) == [] <==> forall i :: 0 <= i < |ds| ==> GoodURL(parse, ds[i].url)
  {
    if ds != [] {
      hide Blank;
      var init, last := ds[..|ds| - 1], |ds| - 1;
      URLsEmptyIff(parse, init);
      assert ds == init + [ds[last]];
      assert URLMessages(parse, ds) == [] <==> URLMessages(parse, init) == [] && GoodURL(parse, ds[last].url);
      hide URLMessages, GoodURL;
    }
  }

  /** A valid list stays valid without one of its elements, and an invalid list does not become
      valid by having one added. */
  lemma ValidityOfParts(parse: Parser, ds: seq<Entry>, i: nat, d: Entry)
    requires i < |ds|
    ensures Valid(parse, ds) ==> Valid(parse, ds[..i] + ds[i + 1..])
    ensures Valid(parse, ds + [d]) ==> Valid(parse, ds)
  {
    var t := ds[..i] + ds[i + 1..];
    hide Blank, GoodURL;
    if Valid(parse, ds) {
      assert forall k :: 0 <= k < |t| ==> t[k] == ds[if k < i then k else k + 1];
    }
    if Valid(parse, ds + [d]) {
      assert forall k :: 0 <= k < |ds| ==> (ds + [d])[k] == ds[k];
    }
  }

  /** ValidationErrors.Append */
  function Append(errs: ValidationErrors, field: string, message: string): ValidationErrors {
    errs[field := (if field in errs then errs[field] else []) + [message]]
  }

  function Count(ds: seq<Entry>, url: string): nat {
    if ds == [] then 0
    else Count(ds[..|ds| - 1], url) + (if ds[|ds| - 1].url == url then 1 else 0)
  }

  lemma {:induction false} CountOccurrences(ds: seq<Entry>, url: string)
    ensures Count(ds, url) > 0 <==> exists i :: 0 <= i < |ds| && ds[i].url == url
    ensures Count(ds, url) > 1 <==> exists i, j :: 0 <= i < j < |ds| && ds[i].url == url && ds[j].url == url
  {
    if ds != [] {
      var init, last := ds[..|ds| - 1], |ds| - 1;
      CountOccurrences(init, url);
      assert forall i :: 0 <= i < last ==> init[i] == ds[i];
      if Count(init, url) > 0 {
        var i :| 0 <= i < |init| && init[i].url == url;
        assert ds[i].url == url;
        if ds[last].url == url {
          assert 0 <= i < last < |ds| && ds[i].url == url && ds[last].url == url;
        }
      }
      if Count(init, url) > 1 {
        var i, j :| 0 <= i < j < |init| && init[i].url == url && init[j].url == url;
        assert ds[i].url == url && ds[j].url == url;
      }
    }
  }

  /** The table of counts that validate fills. */
  ghost predicate Counted(counts: map<string, nat>, ds: seq<Entry>) {
    && (forall url :: url in counts <==> Count(ds, url) > 0)
    && (forall url :: url in counts ==> counts[url] == Count(ds, url))
  }

  lemma CountedExtends(counts: map<string, nat>, ds: seq<Entry>, d: Entry)
    requires Counted(counts, ds)
    ensures Counted(counts[d.url := (if d.url in counts then counts[d.url] else 0) + 1], ds + [d])
  {
    assert (ds + [d])[..|ds|] == ds;
    assert forall url :: Count(ds + [d], url) == Count(ds, url) + (if d.url == url then 1 else 0);
  }

  lemma ErrorsExtend(parse: Parser, ds: seq<Entry>, d: Entry)
    ensures NameMessages(ds + [d]) == NameMessages(ds) + (if Blank(d.name) then [NAME_EMPTY] else [])
    ensures URLMessages(parse, ds + [d]) ==
            URLMessages(parse, ds) + (match URLMessage(parse, d.url) case Some(m) => [m] case None => [])
  {
    assert (ds + [d])[..|ds|] == ds;
    hide Blank, URLMessage;
  }

  /** Appending a message to a field of a two-field table. */
  lemma AppendToFields(names: seq<string>, urls: seq<string>, m: string)
    ensures var errs := Field(NAME, names) + Field(URL_FIELD, urls);
            && Append(errs, NAME, m) == Field(NAME, names + [m]) + Field(URL_FIELD, urls)
            && Append(errs, URL_FIELD, m) == Field(NAME, names) + Field(URL_FIELD, urls + [m])
  {
  }

  /** validate, with its two loops: over the destinations, and over the table of counts. */
  method Validate(parse: Parser, ds: seq<Entry>) returns (errs: ValidationErrors)
    ensures errs == Errors(parse, ds)
  {
    errs := map[];
    var counts: map<string, nat> := map[];
    ghost var names: seq<string>, urls: seq<string> := [], [];
    var k := 0;
    while k < |ds|
      invariant 0 <= k <= |ds|
      invariant names == NameMessages(ds[..k]) && urls == URLMessages(parse, ds[..k])
      invariant errs == Field(NAME, names) + Field(URL_FIELD, urls)
      invariant Counted(counts, ds[..k])
    {
      hide Blank, Counted, Append, Field, NameMessages, URLMessages;
      var dest := ds[k];
      assert ds[..k + 1] == ds[..k] + [dest];
      ErrorsExtend(parse, ds[..k], dest);
      CountedExtends(counts, ds[..k], dest);
      if Blank(dest.name) {
        AppendToFields(names, urls, NAME_EMPTY);
        errs := Append(errs, NAME, NAME_EMPTY);
        names := names + [NAME_EMPTY];
      }
      var u := parse(dest.url);
      if u.ParseFailure? {
        AppendToFields(names, urls, URL_INVALID);
        errs := Append(errs, URL_FIELD, URL_INVALID);
        urls := urls + [URL_INVALID];
      } else if u.scheme != "rtmp" {
        AppendToFields(names, urls, URL_NOT_RTMP);
        errs := Append(errs, URL_FIELD, URL_NOT_RTMP);
        urls := urls + [URL_NOT_RTMP];
      } else if Blank(u.hostname) {
        AppendToFields(names, urls, URL_NO_HOST);
        errs := Append(errs, URL_FIELD, URL_NO_HOST);
        urls := urls + [URL_NO_HOST];
      }
      counts := counts[dest.url := (if dest.url in counts then counts[dest.url] else 0) + 1];
      k := k + 1;
    }
    assert ds[..k] == ds;
    AppendToFields(names, urls, URL_DUPLICATE);
    var duplicate := HasDuplicate(ds, counts);
    if duplicate {
      errs := Append(errs, URL_FIELD, URL_DUPLICATE);
    } else {
      assert urls + [] == urls;
    }
  }

  /** The second loop visits the counts in whatever order and stops at the first above one. */
  method HasDuplicate(ds: seq<Entry>, counts: map<string, nat>) returns (duplicate: bool)
    requires Counted(counts, ds)
    ensures duplicate <==> !DistinctURLs(ds)
  {
    var rest := counts.Keys;
    while rest != {}
      invariant rest <= counts.Keys
      invariant forall url :: url in counts.Keys - rest ==> counts[url] <= 1
    {
      var url :| url in rest;
      if counts[url] > 1 {
        CountOccurrences(ds, url);
        return true;
      }
      rest := rest - {url};
    }
    forall i, j | 0 <= i < j < |ds|
      ensures ds[i].url != ds[j].url
    {
      CountOccurrences(ds, ds[i].url);
    }
    return false;
  }

  // ----- Slices -----

  /** A Go slice that starts at the first element of its backing array. */
  datatype Slice = Slice(arr: array<Entry>, len: nat)

  ghost predicate IsSlice(s: Slice) {
    s.len <= s.arr.Length
  }

  ghost function Elements(s: Slice): seq<Entry>
    requires IsSlice(s)
    reads s.arr
  {
    s.arr[..s.len]
  }

  /** append(s, d): in place where there is room, otherwise in a new array with some room to spare. */
  method AppendTo(s: Slice, d: Entry, spare: nat) returns (r: Slice)
    requires IsSlice(s)
    modifies s.arr
    ensures IsSlice(r) && Elements(r) == old(Elements(s)) + [d]
    ensures Elements(s) == old(Elements(s))
    ensures r.arr == s.arr || fresh(r.arr)
  {
    if s.len < s.arr.Length {
      s.arr[s.len] := d;
      r := Slice(s.arr, s.len + 1);
    } else {
      var grown := new Entry[s.len + 1 + spare](_ => ZERO_ENTRY);
      for i := 0 to s.len
        invariant grown[..i] == s.arr[..i]
        invariant s.arr[..] == old(s.arr[..])
      {
        grown[i] := s.arr[i];
      }
      grown[s.len] := d;
      r := Slice(grown, s.len + 1);
    }
  }

  /** What slices.Delete(s, i, i+1) leaves in the part of the array that s covers. */
  function Shifted(ds: seq<Entry>, i: nat): (r: seq<Entry>)
    requires i < |ds|
    ensures |r| == |ds|
  {
    ds[..i] + ds[i + 1..] + [ZERO_ENTRY]
  }

  /** slices.Delete(s, i, i+1): shift down in place and clear the freed element. */
  method DeleteFrom(s: Slice, i: nat) returns (r: Slice)
    requires IsSlice(s) && i < s.len
    modifies s.arr
    ensures r == Slice(s.arr, s.len - 1) && IsSlice(r)
    ensures Elements(s) == Shifted(old(Elements(s)), i)
    ensures Elements(r) == old(Elements(s))[..i] + old(Elements(s))[i + 1..]
  {
    ghost var before := s.arr[..s.len];
    var k := i;
    while k + 1 < s.len
      invariant i <= k < s.len
      invariant forall m :: 0 <= m < s.len ==> s.arr[m] == before[if i <= m < k then m + 1 else m]
    {
      s.arr[k] := s.arr[k + 1];
      k := k + 1;
    }
    s.arr[s.len - 1] := ZERO_ENTRY;
    r := Slice(s.arr, s.len - 1);
    ShiftedPointwise(before, i, s.arr[..s.len]);
    assert s.arr[..s.len - 1] == s.arr[..s.len][..s.len - 1];
  }

  lemma ShiftedPointwise(before: seq<Entry>, i: nat, after: seq<Entry>)
    requires i < |before| == |after|
    requires forall m :: 0 <= m < i ==> after[m] == before[m]
    requires forall m :: i <= m < |before| - 1 ==> after[m] == before[m + 1]
    requires after[|after| - 1] == ZERO_ENTRY
    ensures after == Shifted(before, i)
    ensures after[..|after| - 1] == before[..i] + before[i + 1..]
  {
  }

  /** slices.IndexFunc by ID: the first match, or None for -1. */
  function IndexOfID(ds: seq<Entry>, id: UUID): (r: Option<nat>)
    ensures match r
            case None => forall k :: 0 <= k < |ds| ==> ds[k].id != id
            case Some(i) => i < |ds| && ds[i].id == id && forall k :: 0 <= k < i ==> ds[k].id != id
  {
    if ds == [] then None
    else if ds[0].id == id then Some(0)
    else
      match IndexOfID(ds[1..], id)
      case None => assert forall k :: 1 <= k < |ds| ==> ds[k] == ds[1..][k - 1]; None
      case Some(i) => assert forall k :: 1 <= k < |ds| ==> ds[k] == ds[1..][k - 1]; Some(i + 1)
  }

  /** What Set reports. */
  datatype SetResult = Stored | Invalid(errors: ValidationErrors) | WriteFailed

  /** A write that fails may have emptied the file, or written a part. */
  datatype FileContents = Holds(payload: seq<Entry>) | Unknown

  class FileStore {
    const parse: Parser
    var destinations: Slice
    var file: FileContents
    ghost var accepted: seq<Entry>  // the last list accepted, or read

    ghost predicate Consistent()
      reads this
    {
      IsSlice(destinations)
    }

    /** createFile: an empty list is written. */
    constructor Create(parse: Parser)
      ensures this.parse == parse && Consistent() && fresh(destinations.arr)
      ensures Elements(destinations) == accepted == [] && Valid(parse, accepted) && file == Holds(accepted)
    {
      this.parse := parse;
      var arr := new Entry[0];
      destinations, file, accepted := Slice(arr, 0), Holds([]), [];
    }

    /** readFile, once the payload has been found to be valid. */
    constructor Read(parse: Parser, payload: seq<Entry>)
      requires Valid(parse, payload)
      ensures this.parse == parse && Consistent() && fresh(destinations.arr)
      ensures Elements(destinations) == accepted == payload && Valid(parse, accepted) && file == Holds(accepted)
    {
      this.parse := parse;
      var arr := new Entry[|payload|](i requires 0 <= i < |payload| => payload[i]);
      assert arr[..|payload|] == payload;
      destinations, file, accepted := Slice(arr, |payload|), Holds(payload), payload;
    }

    method Get() returns (s: Slice)
      ensures s == destinations
    {
      s := destinations;
    }

    /** A state that is refused, or cannot be written, leaves the store's pointer alone: but not what
        has already been edited through the slice that Get shared. */
    method Set(s: Slice, writeOk: bool) returns (r: SetResult)
      requires Consistent() && IsSlice(s)
      modifies this
      ensures Consistent()
      ensures r == (var ds := Elements(s);
                    if !Valid(parse, ds) then Invalid(Errors(parse, ds))
                    else if !writeOk then WriteFailed
                    else Stored)
      ensures if r.Stored? then destinations == s && accepted == Elements(s) && Valid(parse, accepted)
              else destinations == old(destinations) && accepted == old(accepted)
      ensures file == match r
                      case Stored => Holds(accepted)
                      case WriteFailed => Unknown
                      case Invalid(_) => old(file)
    {
      var ds := s.arr[..s.len];
      NoErrorsIffValid(parse, ds);
      var errs := Validate(parse, ds);
      if |errs| > 0 {
        return Invalid(errs);
      }
      if !writeOk {
        file := Unknown;
        return WriteFailed;
      }
      file := Holds(ds);
      destinations, accepted := s, ds;
      return Stored;
    }
  }
}
