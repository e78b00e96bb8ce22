/** Reading the question name of a DNS query (sections 3.1 and 4.1.2 of RFC 1035, without compression). */
module DnsName {
  import opened Options

  type Byte = n: nat | n < 256

  type Label = seq<Byte>

  const HEADER: nat := 12

  // ----- the wire form -----

  predicate IsLabel(l: Label) {
    0 < |l| < 256
  }

  predicate AreLabels(labels: seq<Label>) {
    forall i :: 0 <= i < |labels| ==> IsLabel(labels[i])
  }

  /** Each label after its length. */
  function Body(labels: seq<Label>): seq<Byte>
    requires AreLabels(labels)
  {
    if labels == [] then [] else [|labels[0]|] + labels[0] + Body(labels[1..])
  }

  /** A name: its labels, then the zero length that ends it. */
  function Encode(labels: seq<Label>): seq<Byte>
    requires AreLabels(labels)
  {
    Body(labels) + [0]
  }

  /** What the reader accepts: a terminated name and anything after it, or a name cut off between labels. */
  predicate Reads(bytes: seq<Byte>, labels: seq<Label>) {
    AreLabels(labels) && (bytes == Body(labels) || Encode(labels) <= bytes)
  }

  /** What it refuses: whole labels, then a length that runs past the end. */
  predicate Overruns(bytes: seq<Byte>, labels: seq<Label>) {
    AreLabels(labels) && Body(labels) < bytes && |bytes| < |Body(labels)| + 1 + bytes[|Body(labels)|]
  }

  // ----- the reader -----

  /** The labels at the start of `bytes`, if none of them runs past the end. */
  function LabelsOf(bytes: seq<Byte>): Option<seq<Label>> {
    if bytes == [] || bytes[0] == 0 then Some([])
    else if 1 + bytes[0] > |bytes| then None
    else
      var rest := LabelsOf(bytes[1 + bytes[0]..]);
      if rest.None? then None else Some([bytes[1..1 + bytes[0]]] + rest.value)
  }

  function Joined(labels: seq<Label>, decode: Label -> string): string {
    if labels == [] then ""
    else if |labels| == 1 then decode(labels[0])
    else decode(labels[0]) + "." + Joined(labels[1..], decode)
  }

  /** The name the reader returns; `decode` is the lossy text conversion of a label. */
  function Name(packet: seq<Byte>, decode: Label -> string): Option<string> {
    if |packet| < HEADER + 1 then None
    else
      var labels := LabelsOf(packet[HEADER..]);
      if labels.None? || labels.value == [] then None else Some(Joined(labels.value, decode))
  }

  /** Terminates and stays in bounds on every packet. */
  method ParseDnsQueryName(packet: seq<Byte>, decode: Label -> string) returns (name: Option<string>)
    ensures name == Name(packet, decode)
    ensures |packet| <= 12 ==> name == None
    ensures |packet| > 12 ==> forall labels :: Reads(packet[12..], labels) ==>
      name == if labels == [] then None else Some(Joined(labels, decode))
    ensures |packet| > 12 && (exists cut :: Overruns(packet[12..], cut)) ==> name == None
  {
    NameIsExact(packet, decode);
    hide Reads, Overruns;
    if |packet| < HEADER + 1 {
      return None;
    }
    var offset := HEADER;
    var labels: seq<Label> := [];
    ghost var all := LabelsOf(packet[HEADER..]);
    ghost var ended := false;
    NothingRead(all);
    while offset < |packet|
      invariant HEADER <= offset <= |packet|
      invariant all == Prepend(labels, LabelsOf(packet[offset..])) && !ended
    {
      var len := packet[offset];
      offset := offset + 1;
      if len == 0 {
        Stops(labels, packet[offset - 1..]);
        ended := true;
        break;
      }
      if offset + len > |packet| {
        return None;
      }
      NextLabel(packet, offset, labels);
      labels := labels + [packet[offset..offset + len]];
      offset := offset + len;
    }
    if !ended {
      Stops(labels, packet[offset..]);
    }
    name := if labels != [] then Some(Joined(labels, decode)) else None;
  }

  function Prepend(labels: seq<Label>, rest: Option<seq<Label>>): Option<seq<Label>> {
    if rest.None? then None else Some(labels + rest.value)
  }

  lemma NothingRead(rest: Option<seq<Label>>)
    ensures Prepend([], rest) == rest
  {
    if rest.Some? {
      assert [] + rest.value == rest.value;
    }
  }

  lemma Stops(labels: seq<Label>, rest: seq<Byte>)
    requires rest == [] || rest[0] == 0
    ensures Prepend(labels, LabelsOf(rest)) == Some(labels)
  {
    assert labels + [] == labels;
  }

  lemma NextLabel(packet: seq<Byte>, offset: nat, labels: seq<Label>)
    requires 0 < offset <= |packet| && packet[offset - 1] > 0 && offset + packet[offset - 1] <= |packet|
    ensures
      var len := packet[offset - 1];
      Prepend(labels, LabelsOf(packet[offset - 1..]))
        == Prepend(labels + [packet[offset..offset + len]], LabelsOf(packet[offset + len..]))
  {
    var (bytes, len) := (packet[offset - 1..], packet[offset - 1]);
    var rest := LabelsOf(packet[offset + len..]);
    assert bytes[1..1 + len] == packet[offset..offset + len] && bytes[1 + len..] == packet[offset + len..];
    if rest.Some? {
      assert labels + ([bytes[1..1 + len]] + rest.value) == labels + [bytes[1..1 + len]] + rest.value;
    }
  }

  // ----- reading inverts writing -----

  lemma OneLabel(l: Label, more: seq<Byte>)
    requires IsLabel(l)
    ensures LabelsOf([|l|] + l + more) == Prepend([l], LabelsOf(more))
  {
    var bytes := [|l|] + l + more;
    assert bytes[1..1 + |l|] == l && bytes[1 + |l|..] == more;
  }

  lemma PrependTwice(l: Label, labels: seq<Label>, rest: Option<seq<Label>>)
    ensures Prepend([l], Prepend(labels, rest)) == Prepend([l] + labels, rest)
  {
    if rest.Some? {
      assert [l] + (labels + rest.value) == [l] + labels + rest.value;
    }
  }

  /** A body is read back as its labels, and reading goes on after it. */
  lemma {:induction false} ReadsBack(labels: seq<Label>, more: seq<Byte>)
    requires AreLabels(labels)
    ensures LabelsOf(Body(labels) + more) == Prepend(labels, LabelsOf(more))
    decreases |labels|
  {
    if labels == [] {
      assert Body(labels) + more == more;
      NothingRead(LabelsOf(more));
    } else {
      var (l, rest) := (labels[0], labels[1..]);
      BodyFirst(labels, more);
      hide *;
      ReadsBack(rest, more);
      OneLabel(l, Body(rest) + more);
      PrependTwice(l, rest, LabelsOf(more));
    }
  }

  lemma BodyFirst(labels: seq<Label>, more: seq<Byte>)
    requires AreLabels(labels) && labels != []
    ensures IsLabel(labels[0]) && AreLabels(labels[1..]) && labels == [labels[0]] + labels[1..]
    ensures Body(labels) + more == [|labels[0]|] + labels[0] + (Body(labels[1..]) + more)
  {
  }

  /** The labels read are the only ones that the accepted grammar gives these bytes. */
  lemma {:induction false} LabelsAreParsed(bytes: seq<Byte>)
    ensures LabelsOf(bytes).Some? ==> Reads(bytes, LabelsOf(bytes).value)
    ensures LabelsOf(bytes).None? ==> exists labels :: Overruns(bytes, labels)
  {
    if bytes == [] || bytes[0] == 0 {
      assert Body([]) == [] && Encode([]) == [0];
      assert AreLabels([]);
    } else if 1 + bytes[0] > |bytes| {
      assert Body([]) == [];
      assert Overruns(bytes, []);
    } else {
      var n := bytes[0];
      var (head, rest) := (bytes[1..1 + n], bytes[1 + n..]);
      assert bytes == [n] + head + rest;
      hide Body, Reads, Overruns, AreLabels;
      LabelsAreParsed(rest);
      if LabelsOf(rest).Some? {
        Lengthen(head, rest, LabelsOf(rest).value);
      } else {
        var labels :| Overruns(rest, labels);
        Lengthen(head, rest, labels);
      }
    }
  }

  lemma Lengthen(head: Label, bytes: seq<Byte>, labels: seq<Label>)
    requires IsLabel(head)
    ensures Reads(bytes, labels) ==> Reads([|head|] + head + bytes, [head] + labels)
    ensures Overruns(bytes, labels) ==> Overruns([|head|] + head + bytes, [head] + labels)
  {
    if AreLabels(labels) {
      var all := [head] + labels;
      var more := [|head|] + head;
      assert all[1..] == labels;
      assert AreLabels(all) && Body(all) == more + Body(labels) && Encode(all) == more + Encode(labels);
      hide Body, Encode;
      PrefixKept(more, Encode(labels), bytes);
      PrefixKept(more, Body(labels), bytes);
    }
  }

  lemma PrefixKept(front: seq<Byte>, a: seq<Byte>, b: seq<Byte>)
    ensures a <= b ==> front + a <= front + b
    ensures a < b ==> front + a < front + b && (front + b)[|front + a|] == b[|a|]
  {
  }

  /** Reading is exact: which labels are read, and which packets are refused. */
  lemma ReaderIsExact(bytes: seq<Byte>, labels: seq<Label>)
    ensures LabelsOf(bytes) == Some(labels) <==> Reads(bytes, labels)
    ensures LabelsOf(bytes) == None <==> exists cut :: Overruns(bytes, cut)
  {
    LabelsAreParsed(bytes);
    if Reads(bytes, labels) {
      EncodedReadsBack(bytes, labels);
    }
    forall cut | Overruns(bytes, cut)
      ensures LabelsOf(bytes) == None
    {
      hide Body;
      var more := bytes[|Body(cut)|..];
      assert bytes == Body(cut) + more && more[0] == bytes[|Body(cut)|];
      ReadsBack(cut, more);
    }
  }

  lemma EncodedReadsBack(bytes: seq<Byte>, labels: seq<Label>)
    requires Reads(bytes, labels)
    ensures LabelsOf(bytes) == Some(labels)
  {
    hide Body;
    var more := bytes[|Body(labels)|..];
    assert bytes == Body(labels) + more;
    if Encode(labels) <= bytes {
      assert more[0] == bytes[..|Body(labels)| + 1][|Body(labels)|] == 0;
    }
    ReadsBack(labels, more);
    Stops(labels, more);
  }

  /** From the thirteenth byte on: the labels read, joined by dots; nothing for a length that runs past the end. */
  lemma NameIsExact(packet: seq<Byte>, decode: Label -> string)
    ensures |packet| <= 12 ==> Name(packet, decode) == None
    ensures |packet| > 12 ==> forall labels :: Reads(packet[12..], labels) ==>
      Name(packet, decode) == if labels == [] then None else Some(Joined(labels, decode))
    ensures |packet| > 12 && (exists cut :: Overruns(packet[12..], cut)) ==> Name(packet, decode) == None
  {
    if |packet| > 12 {
      ReaderIsExact(packet[12..], []);
      hide Reads, Overruns, LabelsOf, Joined;
      forall labels | Reads(packet[12..], labels)
        ensures LabelsOf(packet[12..]) == Some(labels)
      {
        ReaderIsExact(packet[12..], labels);
      }
    }
  }

  predicate IsAscii(l: Label) {
    forall i :: 0 <= i < |l| ==> l[i] < 128
  }

  function Text(l: Label): string {
    seq(|l|, i requires 0 <= i < |l| => l[i] as char)
  }

  function JoinedText(labels: seq<Label>): string {
    if labels == [] then ""
    else if |labels| == 1 then Text(labels[0])
    else Text(labels[0]) + "." + JoinedText(labels[1..])
  }

  /** A question built from non-empty labels is read back as those labels joined by dots, whatever follows it. */
  lemma QuestionRoundTrip(header: seq<Byte>, labels: seq<Label>, tail: seq<Byte>, decode: Label -> string)
    requires |header| == HEADER && labels != [] && AreLabels(labels)
    requires forall i :: 0 <= i < |labels| ==> IsAscii(labels[i])
    requires forall l :: IsAscii(l) ==> decode(l) == Text(l)
    ensures Name(header + Encode(labels) + tail, decode) == Some(JoinedText(labels))
  {
    QuestionIsRead(header, labels, tail);
    SameText(labels, decode);
    hide Encode, LabelsOf, Joined, JoinedText, IsAscii, Text;
  }

  lemma QuestionIsRead(header: seq<Byte>, labels: seq<Label>, tail: seq<Byte>)
    requires |header| == HEADER && AreLabels(labels)
    ensures
      var packet := header + Encode(labels) + tail;
      |packet| >= HEADER + 1 && LabelsOf(packet[HEADER..]) == Some(labels)
  {
    var packet := header + Encode(labels) + tail;
    hide Body, LabelsOf, AreLabels;
    assert packet[HEADER..] == Body(labels) + ([0] + tail);
    ReadsBack(labels, [0] + tail);
    Stops(labels, [0] + tail);
  }

  lemma {:induction false} SameText(labels: seq<Label>, decode: Label -> string)
    requires forall i :: 0 <= i < |labels| ==> IsAscii(labels[i])
    requires forall l :: IsAscii(l) ==> decode(l) == Text(l)
    ensures Joined(labels, decode) == JoinedText(labels)
  {
    if |labels| > 1 {
      SameText(labels[1..], decode);
    }
  }
}
