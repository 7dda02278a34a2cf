/** Tables of PSI sections as one flat buffer, and back. */
module PsiTables {
  import opened Common

  const PSI_HEADER_SIZE := 3
  const PSI_HEADER_SIZE_SYNTAX1 := 8
  const PSI_TABLE_MAX_SECTIONS := 256

  type Section = seq<Byte>
  type Table = seq<Option<Section>>

  /** The bytes of a section, after its header. */
  function Size(s: seq<Byte>): int
    requires |s| >= PSI_HEADER_SIZE
  {
    s[1] % 16 * 256 + s[2] + PSI_HEADER_SIZE
  }

  /** A section with the long header, and nothing behind it. */
  predicate Whole(s: Section) {
    |s| >= PSI_HEADER_SIZE_SYNTAX1 && |s| == Size(s)
  }

  function Number(s: Section): nat
    requires Whole(s)
  {
    s[6]
  }

  function Last(s: Section): nat
    requires Whole(s)
  {
    s[7]
  }

  /** Sections of one table have the same table id extension, version and last section number. */
  predicate Akin(s: Section, t: Section)
    requires Whole(s) && Whole(t)
  {
    s[3] == t[3] && s[4] == t[4] && s[5] / 2 % 32 == t[5] / 2 % 32 && Last(s) == Last(t)
  }

  predicate IsTable(table: Table) {
    |table| == PSI_TABLE_MAX_SECTIONS && forall i :: 0 <= i < |table| && table[i].Some? ==> Whole(table[i].value)
  }

  function NoTable(): (t: Table)
    ensures IsTable(t) && forall i :: 0 <= i < |t| ==> t[i] == None
  {
    seq(PSI_TABLE_MAX_SECTIONS, _ => None)
  }

  /** All sections up to the last one are there and belong to s. */
  predicate Full(table: Table, s: Section)
    requires IsTable(table) && Whole(s)
  {
    forall i :: 0 <= i <= Last(s) ==> table[i].Some? && Akin(table[i].value, s)
  }

  /** The contract of psi_table_section (not part of the repository): the section takes its place, and
      when the table is full, what is behind its last section is thrown away. */
  function Insert(table: Table, s: Section): (t: Table)
    requires IsTable(table) && Whole(s)
    ensures IsTable(t)
  {
    var t := table[Number(s) := Some(s)];
    if Full(t, s) then t[..Last(s) + 1] + seq(PSI_TABLE_MAX_SECTIONS - Last(s) - 1, _ => None) else t
  }

  /** A complete table of valid sections.  psi_validate is not part of the repository. */
  predicate Complete(table: Table, validate: Section -> bool) {
    && IsTable(table) && table[0].Some?
    && var last := Last(table[0].value);
      && (forall i :: 0 <= i <= last ==>
            table[i].Some? && Number(table[i].value) == i && Akin(table[i].value, table[0].value) && validate(table[i].value))
      && forall i :: last < i < |table| ==> table[i] == None
  }

  function Flat(table: Table, n: nat): seq<Byte>
    requires n <= |table| && forall i :: 0 <= i < n ==> table[i].Some?
  {
    if n == 0 then [] else Flat(table, n - 1) + table[n - 1].value
  }

  /** psi_pack_sections; a table without a first section is none. */
  method Pack(table: Table) returns (r: Option<seq<Byte>>)
    requires IsTable(table)
    requires table[0].Some? ==> forall i :: 0 <= i <= Last(table[0].value) ==> table[i].Some?
    ensures r == if table[0].Some? then Some(Flat(table, Last(table[0].value) + 1)) else None
  {
    if table[0] == None {
      return None;
    }
    var last := Last(table[0].value);
    var flat := [];
    var i := 0;
    while i <= last
      invariant 0 <= i <= last + 1 && flat == Flat(table, i)
    {
      flat := flat + table[i].value;
      i := i + 1;
    }
    r := Some(flat);
  }

  /** flat is made of whole sections from offset on; beyond that nothing can be read. */
  predicate Framed(flat: seq<Byte>, offset: nat)
    decreases |flat| - offset
  {
    && offset <= |flat|
    && (offset < |flat| ==>
          && offset + PSI_HEADER_SIZE_SYNTAX1 <= |flat|
          && PSI_HEADER_SIZE_SYNTAX1 <= Size(flat[offset..]) <= |flat| - offset
          && Framed(flat, offset + Size(flat[offset..])))
  }

  /** What psi_unpack_sections makes of the bytes from offset on; i sections have been read. */
  function Unpacked(flat: seq<Byte>, offset: nat, i: nat, table: Table, validate: Section -> bool): (r: Option<Table>)
    requires Framed(flat, offset) && offset < |flat| && IsTable(table)
    decreases |flat| - offset
  {
    if i >= PSI_TABLE_MAX_SECTIONS then Some(table)
    else
      var size := Size(flat[offset..]);
      var s := flat[offset..offset + size];
      if !validate(s) then None
      else if offset + size < |flat| then Unpacked(flat, offset + size, i + 1, Insert(table, s), validate)
      else Some(Insert(table, s))
  }

  /** psi_unpack_sections */
  method Unpack(flat: seq<Byte>, validate: Section -> bool) returns (r: Option<Table>)
    requires flat != [] && Framed(flat, 0)
    ensures r == Unpacked(flat, 0, 0, NoTable(), validate)
  {
    hide Framed, Size, Unpacked, Insert;
    var table := NoTable();
    var offset: nat, i: nat := 0, 0;
    while i < PSI_TABLE_MAX_SECTIONS
      invariant 0 <= i <= PSI_TABLE_MAX_SECTIONS && IsTable(table)
      invariant Framed(flat, offset) && offset < |flat|
      invariant Unpacked(flat, 0, 0, NoTable(), validate) == Unpacked(flat, offset, i, table, validate)
    {
      FrameStep(flat, offset);
      UnpackStep(flat, offset, i, table, validate);
      var size := Size(flat[offset..]);
      var s := flat[offset..offset + size];
      if !validate(s) {
        return None;
      }
      table := Insert(table, s);
      offset := offset + size;
      if offset >= |flat| - 1 {
        return Some(table);
      }
      i := i + 1;
    }
    UnpackEnd(flat, offset, i, table, validate);
    r := Some(table);
  }

  /** Between sections either nothing is left or at least a header. */
  lemma FrameStep(flat: seq<Byte>, offset: nat)
    requires Framed(flat, offset) && offset < |flat|
    ensures offset + PSI_HEADER_SIZE_SYNTAX1 <= |flat|
    ensures var size := Size(flat[offset..]);
      && PSI_HEADER_SIZE_SYNTAX1 <= size <= |flat| - offset && Framed(flat, offset + size)
      && Whole(flat[offset..offset + size])
      && (offset + size >= |flat| - 1 <==> offset + size == |flat|)
  {
    var s := flat[offset..offset + Size(flat[offset..])];
    assert s[1] == flat[offset..][1] && s[2] == flat[offset..][2];
  }

  lemma UnpackStep(flat: seq<Byte>, offset: nat, i: nat, table: Table, validate: Section -> bool)
    requires Framed(flat, offset) && offset < |flat| && IsTable(table) && i < PSI_TABLE_MAX_SECTIONS
    ensures var size := Size(flat[offset..]); var s := flat[offset..offset + size];
      && Whole(s) && Framed(flat, offset + size)
      && Unpacked(flat, offset, i, table, validate) ==
           if !validate(s) then None
           else if offset + size < |flat| then Unpacked(flat, offset + size, i + 1, Insert(table, s), validate)
           else Some(Insert(table, s))
  {
    FrameStep(flat, offset);
  }

  lemma UnpackEnd(flat: seq<Byte>, offset: nat, i: nat, table: Table, validate: Section -> bool)
    requires Framed(flat, offset) && offset < |flat| && IsTable(table) && i >= PSI_TABLE_MAX_SECTIONS
    ensures Unpacked(flat, offset, i, table, validate) == Some(table)
  {
  }

  // ----- the round trip -----

  /** The first n sections of the table. */
  function Part(table: Table, n: nat): (t: Table)
    requires IsTable(table) && n <= |table|
    ensures IsTable(t)
  {
    table[..n] + seq(PSI_TABLE_MAX_SECTIONS - n, _ => None)
  }

  lemma PartGrows(table: Table, n: nat, validate: Section -> bool)
    requires Complete(table, validate) && n <= Last(table[0].value)
    ensures Insert(Part(table, n), table[n].value) == Part(table, n + 1)
  {
    var s, last := table[n].value, Last(table[0].value);
    var t := Part(table, n)[n := Some(s)];
    assert t == Part(table, n + 1);
    if n < last {
      assert t[last] == None;
    } else {
      assert t[..last + 1] == table[..last + 1];
    }
  }

  lemma {:induction false} FlatPrefix(table: Table, n: nat, m: nat)
    requires n <= m <= |table| && forall i :: 0 <= i < m ==> table[i].Some?
    ensures Flat(table, n) <= Flat(table, m)
  {
    if n < m { FlatPrefix(table, n, m - 1); }
  }

  lemma SectionAt(table: Table, n: nat, last: nat)
    requires IsTable(table) && n <= last < |table| && forall i :: 0 <= i <= last ==> table[i].Some?
    ensures var flat, offset, s := Flat(table, last + 1), |Flat(table, n)|, table[n].value;
      && offset + |s| <= |flat| && flat[offset..offset + |s|] == s
      && Size(flat[offset..]) == |s| && offset + |s| == |Flat(table, n + 1)|
      && (n == last ==> offset + |s| == |flat|)
  {
    var flat, s := Flat(table, last + 1), table[n].value;
    FlatPrefix(table, n + 1, last + 1);
    assert Flat(table, n + 1) == Flat(table, n) + s;
    var offset := |Flat(table, n)|;
    assert flat[..offset + |s|] == Flat(table, n) + s;
    assert flat[offset..offset + |s|] == s;
    assert flat[offset..][1] == s[1] && flat[offset..][2] == s[2];
  }

  lemma FramedAgain(flat: seq<Byte>, offset: nat, size: nat)
    requires offset + PSI_HEADER_SIZE_SYNTAX1 <= offset + size <= |flat| && Size(flat[offset..]) == size
    requires Framed(flat, offset + size)
    ensures Framed(flat, offset)
  {
  }

  lemma EndFramed(flat: seq<Byte>)
    ensures Framed(flat, |flat|)
  {
  }

  lemma SectionSize(table: Table, n: nat)
    requires IsTable(table) && n < |table| && table[n].Some?
    ensures |table[n].value| >= PSI_HEADER_SIZE_SYNTAX1
  {
  }

  lemma {:induction false} FlatFramed(table: Table, n: nat, last: nat)
    requires IsTable(table) && n <= last + 1 <= |table| && forall i :: 0 <= i <= last ==> table[i].Some?
    ensures |Flat(table, n)| <= |Flat(table, last + 1)| && Framed(Flat(table, last + 1), |Flat(table, n)|)
    decreases last + 1 - n
  {
    hide Framed, Flat, Size, IsTable;
    FlatPrefix(table, n, last + 1);
    if n <= last {
      SectionAt(table, n, last);
      SectionSize(table, n);
      FlatFramed(table, n + 1, last);
      FramedAgain(Flat(table, last + 1), |Flat(table, n)|, |table[n].value|);
    } else {
      EndFramed(Flat(table, last + 1));
    }
  }

  lemma {:induction false} UnpacksRest(table: Table, n: nat, validate: Section -> bool)
    requires Complete(table, validate) && n <= Last(table[0].value)
    ensures var last := Last(table[0].value); var flat, offset := Flat(table, last + 1), |Flat(table, n)|;
      && Framed(flat, offset) && offset < |flat|
      && Unpacked(flat, offset, n, Part(table, n), validate) == Some(table)
    decreases Last(table[0].value) - n
  {
    hide Insert, Akin, Framed, Size, Unpacked, Flat;
    var last := Last(table[0].value);
    FlatFramed(table, n, last);
    SectionAt(table, n, last);
    PartGrows(table, n, validate);
    UnpackStep(Flat(table, last + 1), |Flat(table, n)|, n, Part(table, n), validate);
    if n < last {
      UnpacksRest(table, n + 1, validate);
    } else {
      assert Part(table, last + 1) == table;
    }
  }

  /** Unpacking undoes packing, for every complete table of up to 256 valid sections. */
  lemma RoundTrip(table: Table, validate: Section -> bool)
    requires Complete(table, validate)
    ensures var flat := Flat(table, Last(table[0].value) + 1);
      && flat != [] && Framed(flat, 0)
      && Unpacked(flat, 0, 0, NoTable(), validate) == Some(table)
  {
    UnpacksRest(table, 0, validate);
    assert Part(table, 0) == NoTable();
  }
}
