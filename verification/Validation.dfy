/** What the table of validation errors says, in the texts that a user reads (internal/store/filestore.go:113-166):
    which message for which destination, and in what order. */
module Validation {
  import opened Domain
  import opened Store

  /** One URL: the first of the three things that can be wrong with it. */
  lemma URLMessageIff(parse: Parser, url: string)
    ensures URLMessage(parse, url) == Some("URL is invalid") <==> parse(url).ParseFailure?
    ensures URLMessage(parse, url) == Some("URL must be an RTMP URL") <==>
              parse(url).URL? && parse(url).scheme != "rtmp"
    ensures URLMessage(parse, url) == Some("URL hostname must not be empty") <==>
              parse(url).URL? && parse(url).scheme == "rtmp" && Blank(parse(url).hostname)
    ensures URLMessage(parse, url) == None <==> GoodURL(parse, url)
  {
    hide Blank;
    assert "URL is invalid"[4] == 'i' && "URL must be an RTMP URL"[4] == 'm';
    assert "URL hostname must not be empty"[4] == 'h';
  }

  /** The destinations with a blank name, and those with a bad URL, by their places in the list. */
  ghost function BlankNames(ds: seq<Entry>): seq<nat> {
    if ds == [] then []
    else BlankNames(ds[..|ds| - 1]) + if Blank(ds[|ds| - 1].name) then [|ds| - 1] else []
  }

  ghost function BadURLs(parse: Parser, ds: seq<Entry>): seq<nat> {
    if ds == [] then []
    else BadURLs(parse, ds[..|ds| - 1]) + if GoodURL(parse, ds[|ds| - 1].url) then [] else [|ds| - 1]
  }

  function Unnamed(ds: seq<Entry>): nat -> bool {
    (k: nat) => k < |ds| && Blank(ds[k].name)
  }

  function Unusable(parse: Parser, ds: seq<Entry>): nat -> bool {
    (k: nat) => k < |ds| && !GoodURL(parse, ds[k].url)
  }

  /** These places of a list, all of them, in order. */
  ghost predicate AllPlaces(places: seq<nat>, length: nat, chosen: nat -> bool) {
    && (forall i, j :: 0 <= i < j < |places| ==> places[i] < places[j])
    && (forall k: nat :: k in places <==> k < length && chosen(k))
  }

  lemma OneMorePlace(places: seq<nat>, length: nat, chosen: nat -> bool, before: nat -> bool)
    requires AllPlaces(places, length, before)
    requires forall k: nat :: k < length ==> chosen(k) == before(k)
    ensures AllPlaces(places + if chosen(length) then [length] else [], length + 1, chosen)
  {
    var more := places + if chosen(length) then [length] else [];
    forall k: nat
      ensures k in more <==> k < length + 1 && chosen(k)
    {
      assert k in more <==> k in places || (chosen(length) && k == length);
    }
    assert forall i :: 0 <= i < |places| ==> places[i] in places;
  }

  lemma {:induction false} BlankNamesAre(ds: seq<Entry>)
    ensures AllPlaces(BlankNames(ds), |ds|, Unnamed(ds))
    ensures |NameMessages(ds)| == |BlankNames(ds)|
    ensures forall k :: 0 <= k < |NameMessages(ds)| ==> NameMessages(ds)[k] == "Name cannot be empty"
  {
    if ds != [] {
      var init, n := ds[..|ds| - 1], |ds| - 1;
      BlankNamesAre(init);
      hide Blank, AllPlaces;
      OneMorePlace(BlankNames(init), n, Unnamed(ds), Unnamed(init));
    } else {
      assert AllPlaces([], 0, Unnamed(ds));
    }
  }

  lemma {:induction false} BadURLsAre(parse: Parser, ds: seq<Entry>)
    ensures AllPlaces(BadURLs(parse, ds), |ds|, Unusable(parse, ds))
  {
    if ds != [] {
      var init, n := ds[..|ds| - 1], |ds| - 1;
      BadURLsAre(parse, init);
      hide AllPlaces, GoodURL;
      OneMorePlace(BadURLs(parse, init), n, Unusable(parse, ds), Unusable(parse, init));
    } else {
      assert AllPlaces([], 0, Unusable(parse, ds));
    }
  }

  /** Message k is about the k-th of these places. */
  predicate Matching(parse: Parser, ds: seq<Entry>, messages: seq<string>, places: seq<nat>) {
    && |messages| == |places|
    && forall k :: 0 <= k < |messages| ==>
         places[k] < |ds| && Some(messages[k]) == URLMessage(parse, ds[places[k]].url)
  }

  lemma MatchingSnoc(parse: Parser, ds: seq<Entry>, d: Entry, messages: seq<string>, places: seq<nat>)
    requires Matching(parse, ds, messages, places)
    ensures Matching(parse, ds + [d], messages, places)
    ensures URLMessage(parse, d.url).Some? ==>
              Matching(parse, ds + [d], messages + [URLMessage(parse, d.url).value], places + [|ds|])
  {
    hide URLMessage;
  }

  lemma {:induction false} URLMessagesMatch(parse: Parser, ds: seq<Entry>)
    ensures Matching(parse, ds, URLMessages(parse, ds), BadURLs(parse, ds))
  {
    if ds != [] {
      var init, d := ds[..|ds| - 1], ds[|ds| - 1];
      URLMessagesMatch(parse, init);
      URLMessageIff(parse, d.url);
      MatchingSnoc(parse, init, d, URLMessages(parse, init), BadURLs(parse, init));
      assert ds == init + [d];
      assert URLMessages(parse, init) + [] == URLMessages(parse, init);
      assert BadURLs(parse, init) + [] == BadURLs(parse, init);
      hide Matching, GoodURL, URLMessage;
    }
  }

  /** What is said about the names, and about the URLs. */
  ghost predicate SaysOfNames(ds: seq<Entry>, messages: seq<string>) {
    && |messages| == |BlankNames(ds)|
    && AllPlaces(BlankNames(ds), |ds|, Unnamed(ds))
    && forall k :: 0 <= k < |messages| ==> messages[k] == "Name cannot be empty"
  }

  ghost predicate SaysOfURLs(parse: Parser, ds: seq<Entry>, messages: seq<string>) {
    var twice := exists i, j :: 0 <= i < j < |ds| && ds[i].url == ds[j].url;
    var n := |messages| - if twice then 1 else 0;
    && AllPlaces(BadURLs(parse, ds), |ds|, Unusable(parse, ds))
    && n >= 0 && Matching(parse, ds, messages[..n], BadURLs(parse, ds))
    && (twice ==> messages[n] == "URL is a duplicate of another URL")
  }

  lemma NamesSaid(ds: seq<Entry>)
    ensures SaysOfNames(ds, NameMessages(ds))
  {
    BlankNamesAre(ds);
    hide NameMessages, BlankNames, AllPlaces, Unnamed;
  }

  lemma URLsSaid(parse: Parser, ds: seq<Entry>, urls: seq<string>)
    requires urls == URLMessages(parse, ds) + if DistinctURLs(ds) then [] else [URL_DUPLICATE]
    ensures SaysOfURLs(parse, ds, urls)
  {
    BadURLsAre(parse, ds);
    URLMessagesMatch(parse, ds);
    hide URLMessages, BadURLs, AllPlaces, Matching, Unusable;
    assert urls[..|URLMessages(parse, ds)|] == URLMessages(parse, ds);
    if !DistinctURLs(ds) {
      var i, j :| 0 <= i < j < |ds| && ds[i].url == ds[j].url;
    }
  }

  /** The table has at most the fields name and url. The first holds one message for each blank name; the second
      one for each bad URL, in the order of the list, and then one more if any URL stands in the list twice,
      however often; and a field that has nothing to say is not there. */
  lemma ErrorTable(parse: Parser, ds: seq<Entry>)
    ensures
      var errors := Errors(parse, ds);
      && errors.Keys <= {"name", "url"}
      && (forall field :: field in errors ==> errors[field] != [])
      && SaysOfNames(ds, if "name" in errors then errors["name"] else [])
      && SaysOfURLs(parse, ds, if "url" in errors then errors["url"] else [])
  {
    var urls := URLMessages(parse, ds) + if DistinctURLs(ds) then [] else [URL_DUPLICATE];
    NamesSaid(ds);
    URLsSaid(parse, ds, urls);
    FieldsOfTable(NameMessages(ds), urls);
    hide SaysOfNames, SaysOfURLs, NameMessages, URLMessages, Field, DistinctURLs;
  }

  lemma FieldsOfTable(names: seq<string>, urls: seq<string>)
    ensures
      var errors := Field("name", names) + Field("url", urls);
      && errors.Keys <= {"name", "url"}
      && (forall field :: field in errors ==> errors[field] != [])
      && (if "name" in errors then errors["name"] else []) == names
      && (if "url" in errors then errors["url"] else []) == urls
  {
    assert "name"[0] != "url"[0];
  }
}
