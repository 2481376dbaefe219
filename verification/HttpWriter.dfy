/**
 Writing requests out as a `.http` script. A header map has no order of its own: the writer is
 given one, and everything said about its output holds for all of them.
 */
module HttpWriter {
  import opened HttpText
  import opened HttpParser

  /** Some order of the header names, each once. */
  predicate Orders(headers: Headers, order: seq<string>) {
    && (forall i :: 0 <= i < |order| ==> order[i] in headers)
    && (forall n :: n in headers ==> n in order)
    && (forall i, j :: 0 <= i < j < |order| ==> order[i] != order[j])
  }

  // ----- the text, as the writer prints it -----

  function NameText(r: Request): string {
    if r.name != "" then "# @name " + r.name + "\n" else ""
  }

  function RequestText(lib: Library, r: Request): string {
    r.verb + " " + lib.render(r.url) + " " + (if r.proto == "" then DEFAULT_PROTO_VERSION else r.proto) + "\n"
  }

  predicate WritesHost(r: Request) {
    r.host != "" && r.host != r.url.host
  }

  function HostText(r: Request): string {
    if WritesHost(r) then "Host: " + r.host + "\n" else ""
  }

  function HeaderText(headers: Headers, order: seq<string>): string
    requires forall i :: 0 <= i < |order| ==> order[i] in headers
  {
    if order == [] then ""
    else
      var n := |order| - 1;
      HeaderText(headers, order[..n])
      + if order[n] != HOST then order[n] + ": " + Join(headers[order[n]], "; ") + "\n" else ""
  }

  function BodyText(r: Request): string {
    if |r.body| > 0 then "\n" + r.body + "\n" else ""
  }

  function RequestScript(lib: Library, r: Request, order: seq<string>): string
    requires Orders(r.headers, order)
  {
    NameText(r) + RequestText(lib, r) + HostText(r) + HeaderText(r.headers, order) + BodyText(r)
  }

  /** Entries with an order for the headers of each. */
  predicate OrdersAll(entries: seq<Request>, orders: seq<seq<string>>) {
    |orders| == |entries| && forall i :: 0 <= i < |entries| ==> Orders(entries[i].headers, orders[i])
  }

  function Script(lib: Library, entries: seq<Request>, orders: seq<seq<string>>): string
    requires OrdersAll(entries, orders)
  {
    if entries == [] then ""
    else if |entries| == 1 then RequestScript(lib, entries[0], orders[0])
    else RequestScript(lib, entries[0], orders[0]) + "###\n" + Script(lib, entries[1..], orders[1..])
  }

  /** A request without a protocol prints as one that names the default. */
  lemma DefaultProtocolPrints(lib: Library, r: Request, order: seq<string>)
    requires Orders(r.headers, order) && r.proto == ""
    ensures RequestScript(lib, r, order) == RequestScript(lib, r.(proto := "HTTP/1.1"), order)
  {
  }

  /** A Host header prints nothing of its own, wherever it comes: the host has its own line. */
  lemma {:induction false} HostHeaderIsSilent(headers: Headers, before: seq<string>, after: seq<string>)
    requires "Host" in headers && (forall n :: n in before ==> n in headers) && forall n :: n in after ==> n in headers
    ensures HeaderText(headers, before + ["Host"] + after) == HeaderText(headers, before + after)
    decreases |after|
  {
    if after == [] {
      assert (before + ["Host"])[..|before|] == before;
      assert before + ["Host"] + after == before + ["Host"] && before + after == before;
    } else {
      var n := |after| - 1;
      HostHeaderIsSilent(headers, before, after[..n]);
      var long, short := before + ["Host"] + after, before + after;
      assert long[..|long| - 1] == before + ["Host"] + after[..n] && long[|long| - 1] == after[n];
      assert short[..|short| - 1] == before + after[..n] && short[|short| - 1] == after[n];
    }
  }

  // ----- the writer -----

  lemma Regroup(a: string, b: string, c: string)
    ensures a + b + c == a + (b + c)
  {
  }

  lemma RegroupScript(start: string, lib: Library, r: Request, order: seq<string>)
    requires Orders(r.headers, order)
    ensures start + NameText(r) + RequestText(lib, r) + HostText(r) + HeaderText(r.headers, order) + BodyText(r)
         == start + RequestScript(lib, r, order)
  {
    hide NameText, RequestText, HostText, HeaderText, BodyText;
    Regroup(start, NameText(r), RequestText(lib, r));
    Regroup(start, NameText(r) + RequestText(lib, r), HostText(r));
    Regroup(start, NameText(r) + RequestText(lib, r) + HostText(r), HeaderText(r.headers, order));
    Regroup(start, NameText(r) + RequestText(lib, r) + HostText(r) + HeaderText(r.headers, order), BodyText(r));
  }

  class Writer {
    var out: string

    constructor ()
      ensures out == ""
    {
      out := "";
    }

    method Print(s: string)
      modifies this
      ensures out == old(out) + s
    {
      out := out + s;
    }

    method MarshalOpening(lib: Library, r: Request)
      modifies this
      ensures out == old(out) + NameText(r) + RequestText(lib, r) + HostText(r)
    {
      if r.name != "" {
        Print("# @name " + r.name + "\n");
      }
      assert out == old(out) + NameText(r);
      var protoVersion := r.proto;
      if protoVersion == "" {
        protoVersion := DEFAULT_PROTO_VERSION;
      }
      Print(r.verb + " " + lib.render(r.url) + " " + protoVersion + "\n");
      hide NameText;
      if r.host != "" && r.host != r.url.host {
        Print("Host: " + r.host + "\n");
      }
    }

    method MarshalRequest(lib: Library, r: Request, order: seq<string>)
      requires Orders(r.headers, order)
      modifies this
      ensures out == old(out) + RequestScript(lib, r, order)
    {
      hide NameText, RequestText, HostText, RequestScript;
      ghost var start := out;
      MarshalOpening(lib, r);
      ghost var opening := out;
      for i := 0 to |order|
        invariant out == opening + HeaderText(r.headers, order[..i])
      {
        assert order[..i + 1][..i] == order[..i];
        if order[i] != HOST {
          Print(order[i] + ": " + Join(r.headers[order[i]], "; ") + "\n");
          Regroup(opening, HeaderText(r.headers, order[..i]), order[i] + ": " + Join(r.headers[order[i]], "; ") + "\n");
        }
      }
      assert order[..|order|] == order;
      if |r.body| > 0 {
        Print("\n" + r.body + "\n");
      }
      RegroupScript(start, lib, r, order);
    }

    method Marshal(lib: Library, entries: seq<Request>, orders: seq<seq<string>>)
      requires OrdersAll(entries, orders)
      modifies this
      ensures out == old(out) + Script(lib, entries, orders)
    {
      hide Script, RequestScript, Orders;
      ghost var start := out;
      assert entries[0..] == entries && orders[0..] == orders;
      for i := 0 to |entries|
        invariant out + Script(lib, entries[i..], orders[i..]) == start + Script(lib, entries, orders)
      {
        ghost var before, entry, rest := out, RequestScript(lib, entries[i], orders[i]), Script(lib, entries[i + 1..], orders[i + 1..]);
        ScriptFrom(lib, entries, orders, i);
        MarshalRequest(lib, entries[i], orders[i]);
        assert out == before + entry;
        if i + 1 != |entries| {
          Print("###\n");
          Regroup(before + entry, "###\n", rest);
          Regroup(before, entry, "###\n" + rest);
          Regroup(entry, "###\n", rest);
        } else {
          Regroup(before, entry, rest);
        }
      }
      ScriptEnds(lib, out);
    }
  }

  lemma ScriptEnds(lib: Library, out: string)
    ensures out + Script(lib, [], []) == out
  {
  }

  lemma ScriptFrom(lib: Library, entries: seq<Request>, orders: seq<seq<string>>, i: nat)
    requires OrdersAll(entries, orders) && i < |entries|
    ensures Script(lib, entries[i..], orders[i..]) ==
      var entry, rest := RequestScript(lib, entries[i], orders[i]), Script(lib, entries[i + 1..], orders[i + 1..]);
      if i + 1 < |entries| then entry + "###\n" + rest else entry + rest
  {
    hide RequestScript;
    assert entries[i..][1..] == entries[i + 1..] && orders[i..][1..] == orders[i + 1..];
  }
}
