/** Records as lists of Information Elements, and how a template cuts octets into them
    (RFC 7011, sections 3.4.1 and 3.4.3). */
module InformationElements {
  import opened Basics
  import opened Templates

  datatype Information = Information(ie: u16, octets: seq<byte>)

  function Octets(elements: seq<Information>): seq<byte> {
    if elements == [] then [] else elements[0].octets + Octets(elements[1..])
  }

  lemma {:induction false} OctetsConcat(a: seq<Information>, b: seq<Information>)
    ensures Octets(a + b) == Octets(a) + Octets(b)
  {
    if a == [] {
      ConcatEmpty(b);
      ConcatEmpty(Octets(b));
    } else {
      ConcatTail(a, b);
      OctetsConcat(a[1..], b);
      ConcatAssoc(a[0].octets, Octets(a[1..]), Octets(b));
    }
  }

  lemma {:induction false} OctetsOfOne(e: Information)
    ensures Octets([e]) == e.octets
  {
    assert [e][1..] == [];
    ConcatEmpty(e.octets);
  }

  /** Appending the elements one after the other is appending their octets. */
  lemma {:induction false} OctetsGrow(base: seq<byte>, elements: seq<Information>, i: nat)
    requires i < |elements|
    ensures base + Octets(elements[..i]) + elements[i].octets == base + Octets(elements[..i + 1])
  {
    OctetsConcat(elements[..i], [elements[i]]);
    OctetsOfOne(elements[i]);
    assert elements[..i + 1] == elements[..i] + [elements[i]];
    ConcatAssoc(base, Octets(elements[..i]), elements[i].octets);
  }

  /** `elements` is a record of the template: same elements in the same order, each of the announced length. */
  ghost predicate Describes(fields: seq<Field>, elements: seq<Information>) {
    && |fields| == |elements|
    && forall i :: 0 <= i < |fields| ==>
         elements[i].ie == fields[i].ie && |elements[i].octets| == fields[i].length
  }

  lemma {:induction false} DescribesConcat(f: seq<Field>, g: seq<Field>, a: seq<Information>, b: seq<Information>)
    requires Describes(f, a) && Describes(g, b)
    ensures Describes(f + g, a + b)
  {
  }

  /** Cut one record at the cumulative field lengths. */
  function CutFields(fields: seq<Field>, record: seq<byte>): seq<Information>
    requires |record| == RecordLength(fields)
  {
    if fields == [] then []
    else
      var n := fields[0].length;
      [Information(fields[0].ie, record[..n])] + CutFields(fields[1..], record[n..])
  }

  lemma {:induction false} CutInvertsOctets(fields: seq<Field>, elements: seq<Information>)
    requires Describes(fields, elements)
    ensures |Octets(elements)| == RecordLength(fields)
    ensures CutFields(fields, Octets(elements)) == elements
  {
    if fields == [] {
    } else {
      CutInvertsOctets(fields[1..], elements[1..]);
      var n := fields[0].length;
      assert Octets(elements)[..n] == elements[0].octets;
      assert Octets(elements)[n..] == Octets(elements[1..]);
    }
  }

  /** The octets of the first element with number `ie`. */
  function Find(elements: seq<Information>, ie: u16): Option<seq<byte>> {
    if elements == [] then None
    else if elements[0].ie == ie then Some(elements[0].octets)
    else Find(elements[1..], ie)
  }

  lemma {:induction false} FindFirst(elements: seq<Information>, i: nat)
    requires i < |elements|
    requires forall j :: 0 <= j < i ==> elements[j].ie != elements[i].ie
    ensures Find(elements, elements[i].ie) == Some(elements[i].octets)
  {
    if i == 0 {
    } else {
      FindFirst(elements[1..], i - 1);
    }
  }

  lemma {:induction false} FindAbsent(elements: seq<Information>, ie: u16)
    requires forall j :: 0 <= j < |elements| ==> elements[j].ie != ie
    ensures Find(elements, ie) == None
  {
    if elements == [] {
    } else {
      FindAbsent(elements[1..], ie);
    }
  }
}
