/**
 * The server-sent-event client registry: a module-level list of open
 * streams, and the payload `broadcast` writes to each, in the
 * event-stream format of section 9.2 of the WHATWG HTML Living Standard.
 */
module Sse {
  import opened Wrappers
  import opened Text
  import Lookup

  /** A stream writer, known only by identity. */
  type Writer = nat

  datatype Client = Client(id: string, writer: Writer)

  /** One `write` call on a client's stream. */
  datatype Write = Write(writer: Writer, chunk: string)

  /** `data: <json>\n\n`. */
  function Payload(json: string): (r: string)
    ensures StartsWith(r, "data: ") && EndsWith(r, "\n\n") && |r| == |json| + 8
  {
    "data: " + json + "\n\n"
  }

  /** The position of the first client with this id: `clients.findIndex`. */
  function IndexOfId(clients: seq<Client>, id: string): (r: Option<nat>)
    ensures r.Some? ==> r.value < |clients| && clients[r.value].id == id
    ensures r.Some? ==> forall j :: 0 <= j < r.value ==> clients[j].id != id
    ensures r.None? ==> forall j :: 0 <= j < |clients| ==> clients[j].id != id
  {
    Lookup.FirstIndex(clients, (c: Client) => c.id == id)
  }

  /** The list `removeClient(id)` leaves behind. */
  function RemoveFirst(clients: seq<Client>, id: string): (r: seq<Client>)
    ensures IndexOfId(clients, id).None? ==> r == clients
    ensures IndexOfId(clients, id).Some? ==>
              var k := IndexOfId(clients, id).value;
              |r| == |clients| - 1 && r == clients[..k] + clients[k + 1..]
  {
    match IndexOfId(clients, id)
    case None => clients
    case Some(k) => clients[..k] + clients[k + 1..]
  }

  /** The writes `broadcast(json)` performs: the same payload to every client, in list order. */
  function BroadcastWrites(clients: seq<Client>, json: string): (r: seq<Write>)
    ensures |r| == |clients|
    ensures forall i :: 0 <= i < |r| ==> r[i] == Write(clients[i].writer, Payload(json))
  {
    if clients == [] then []
    else BroadcastWrites(clients[..|clients| - 1], json) + [Write(clients[|clients| - 1].writer, Payload(json))]
  }

  /** The registry: the open clients and every chunk written so far. */
  class Registry {
    var clients: seq<Client>
    var written: seq<Write>

    constructor()
      ensures clients == [] && written == []
    {
      clients := [];
      written := [];
    }

    /**
     * `registerClient(writer)`: the id is `Date.now()` followed by the
     * text of a random number, both given here.
     */
    method Register(writer: Writer, now: nat, random: string) returns (id: string)
      modifies this
      ensures id == NatToString(now) + random
      ensures clients == old(clients) + [Client(id, writer)]
      ensures written == old(written)
    {
      id := NatToString(now) + random;
      clients := clients + [Client(id, writer)];
    }

    /** `removeClient(id)`: `findIndex`, then `splice` of that one entry. */
    method Remove(id: string)
      modifies this
      ensures clients == RemoveFirst(old(clients), id)
      ensures written == old(written)
    {
      var i := 0;
      while i < |clients| && clients[i].id != id
        invariant 0 <= i <= |clients|
        invariant forall j :: 0 <= j < i ==> clients[j].id != id
      {
        i := i + 1;
      }
      if i < |clients| {
        assert IndexOfId(clients, id) == Some(i);
        clients := clients[..i] + clients[i + 1..];
      } else {
        assert IndexOfId(clients, id) == None;
      }
    }

    /** `broadcast(json)`: one write per client, in order; the list is untouched. */
    method Broadcast(json: string)
      modifies this
      ensures clients == old(clients)
      ensures written == old(written) + BroadcastWrites(clients, json)
    {
      var payload := Payload(json);
      var i := 0;
      while i < |clients|
        invariant 0 <= i <= |clients|
        invariant clients == old(clients)
        invariant written == old(written) + BroadcastWrites(clients[..i], json)
      {
        assert clients[..i + 1][..i] == clients[..i];
        written := written + [Write(clients[i].writer, payload)];
        i := i + 1;
      }
      assert clients[..i] == clients;
    }
  }

  /** An unknown id leaves the list as it was. */
  lemma RemoveUnknown(clients: seq<Client>, id: string)
    requires forall i :: 0 <= i < |clients| ==> clients[i].id != id
    ensures RemoveFirst(clients, id) == clients
  {
  }

  /** Registering and then removing the same fresh id restores the list. */
  lemma RegisterThenRemove(clients: seq<Client>, c: Client)
    requires forall i :: 0 <= i < |clients| ==> clients[i].id != c.id
    ensures RemoveFirst(clients + [c], c.id) == clients
  {
    var s := clients + [c];
    assert forall j :: 0 <= j < |clients| ==> s[j] == clients[j];
    var r := IndexOfId(s, c.id);
    assert s[|clients|] == c;
    assert r == Some(|clients|);
    assert s[..|clients|] == clients;
  }

  predicate IsLineFeed(c: char) {
    c == '\n'
  }

  predicate IsColon(c: char) {
    c == ':'
  }

  // ---- Reading the stream back: the event-stream parser ----

  /** The field name and value of a non-comment line, with one leading space dropped from the value. */
  function Field(line: string): (string, string) {
    match Lookup.FirstIndex(line, IsColon)
    case None => (line, "")
    case Some(k) =>
      var v := line[k + 1..];
      (line[..k], if v != [] && v[0] == ' ' then v[1..] else v)
  }

  /**
   * The `data` of the message events a client dispatches on reading
   * `s`, with `data` the data buffer so far. Lines end at LF; a blank
   * line dispatches the buffer (without its last LF) unless it is empty;
   * a line starting with ':' is a comment; a `data` field appends its
   * value and an LF; other fields do not touch the buffer; an
   * unterminated last line waits for more input.
   */
  function Events(s: string, data: string): seq<string>
    decreases |s|
  {
    match Lookup.FirstIndex(s, IsLineFeed)
    case None => []
    case Some(k) =>
      var line := s[..k];
      var rest := s[k + 1..];
      if line == [] then
        if data == [] then Events(rest, []) else [data[..|data| - 1]] + Events(rest, [])
      else if line[0] == ':' then Events(rest, data)
      else if Field(line).0 == "data" then Events(rest, data + Field(line).1 + "\n")
      else Events(rest, data)
  }

  /** A `data: <json>` line appends the JSON and an LF to the buffer. */
  lemma DataLine(json: string, rest: string, data: string)
    requires '\n' !in json
    ensures Events("data: " + json + "\n" + rest, data) == Events(rest, data + json + "\n")
  {
    var line := "data: " + json;
    var s := line + "\n" + rest;
    assert forall j :: 0 <= j < |line| ==> s[j] == line[j] && line[j] != '\n';
    Lookup.FirstIndexIs(s, IsLineFeed, |line|);
    assert s[..|line|] == line && s[|line| + 1..] == rest;
    Lookup.FirstIndexIs(line, IsColon, 4);
    assert line[..4] == "data" && line[5..] == " " + json && (" " + json)[1..] == json;
  }

  /** A blank line dispatches a non-empty buffer without its last LF. */
  lemma BlankLine(more: string, data: string)
    requires data != []
    ensures Events("\n" + more, data) == [data[..|data| - 1]] + Events(more, [])
  {
    Lookup.FirstIndexIs("\n" + more, IsLineFeed, 0);
    assert ("\n" + more)[1..] == more;
  }

  /** One payload, followed by anything, dispatches exactly its JSON first. */
  lemma PayloadDispatches(json: string, more: string)
    requires '\n' !in json
    ensures Events(Payload(json) + more, []) == [json] + Events(more, [])
  {
    assert Payload(json) + more == "data: " + json + "\n" + ("\n" + more);
    DataLine(json, "\n" + more, []);
    var buf := [] + json + "\n";
    BlankLine(more, buf);
    assert buf[..|buf| - 1] == json;
  }

  /** The concatenated payloads of a sequence of broadcasts. */
  function Stream(jsons: seq<string>): string {
    if jsons == [] then [] else Payload(jsons[0]) + Stream(jsons[1..])
  }

  /** A client that receives every broadcast reads back exactly the JSON texts, in order. */
  lemma {:induction false} StreamRoundTrip(jsons: seq<string>)
    requires forall i :: 0 <= i < |jsons| ==> '\n' !in jsons[i]
    ensures Events(Stream(jsons), []) == jsons
  {
    if jsons != [] {
      PayloadDispatches(jsons[0], Stream(jsons[1..]));
      StreamRoundTrip(jsons[1..]);
    }
  }
}
