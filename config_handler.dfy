// The grouping step of the compatible-options endpoint
// (internal/handlers/config/config_handler.go): the speed records that fit a
// material are grouped per technology, collecting the distinct thicknesses in
// the order first seen and whether any record can cut or engrave.
module ConfigHandler {
  import opened Common

  /** One compatible speed record, with the name and code of its technology. */
  datatype SpeedRow = SpeedRow(
    technologyID: nat,
    technologyName: string,
    technologyCode: string,
    thickness: real,
    cutSpeedMmMin: Option<real>,
    engraveSpeedMmMin: Option<real>)

  /** One technology of the response. */
  datatype TechOption = TechOption(
    id: nat,
    name: string,
    code: string,
    thicknesses: seq<real>,
    canCut: bool,
    canEngrave: bool)

  /** A record with a cutting speed above zero. */
  predicate Cuts(s: SpeedRow)
  {
    s.cutSpeedMmMin.Some? && s.cutSpeedMmMin.value > 0.0
  }

  /** A record with an engraving speed above zero. */
  predicate Engraves(s: SpeedRow)
  {
    s.engraveSpeedMmMin.Some? && s.engraveSpeedMmMin.value > 0.0
  }

  predicate NoDuplicates(ts: seq<real>)
  {
    forall i, j :: 0 <= i < j < |ts| ==> ts[i] != ts[j]
  }

  /** The list with `t` appended unless it already holds it. */
  function AddThickness(ts: seq<real>, t: real): (r: seq<real>)
    ensures NoDuplicates(ts) ==> NoDuplicates(r)
    ensures forall x :: x in r <==> x in ts || x == t
  {
    if t in ts then ts else ts + [t]
  }

  /** Each value once, at the place it first occurs. */
  function Dedup(xs: seq<real>): (r: seq<real>)
    ensures NoDuplicates(r)
    ensures forall x :: x in r <==> x in xs
  {
    if xs == [] then [] else AddThickness(Dedup(xs[..|xs| - 1]), xs[|xs| - 1])
  }

  /** An entry of a technology seen for the first time. */
  function NewEntry(s: SpeedRow): TechOption
  {
    TechOption(s.technologyID, s.technologyName, s.technologyCode, [], false, false)
  }

  /** One step of the grouping: the record's technology entry, created if new, takes in the record. */
  function Absorb(m: map<nat, TechOption>, s: SpeedRow): map<nat, TechOption>
  {
    var tech := if s.technologyID in m then m[s.technologyID] else NewEntry(s);
    m[s.technologyID := tech.(
      thicknesses := AddThickness(tech.thicknesses, s.thickness),
      canCut := tech.canCut || Cuts(s),
      canEngrave := tech.canEngrave || Engraves(s))]
  }

  /** The grouping of a list of records, taken in order. */
  function Group(rows: seq<SpeedRow>): map<nat, TechOption>
  {
    if rows == [] then map[] else Absorb(Group(rows[..|rows| - 1]), rows[|rows| - 1])
  }

  /** The thicknesses of a technology's records, in record order. */
  function ThicknessesOf(rows: seq<SpeedRow>, id: nat): seq<real>
  {
    if rows == [] then []
    else ThicknessesOf(rows[..|rows| - 1], id) + (if rows[|rows| - 1].technologyID == id then [rows[|rows| - 1].thickness] else [])
  }

  /** The index of a technology's first record. */
  function FirstOf(rows: seq<SpeedRow>, id: nat): (i: nat)
    requires exists k :: 0 <= k < |rows| && rows[k].technologyID == id
    ensures i < |rows| && rows[i].technologyID == id
    ensures forall k :: 0 <= k < i ==> rows[k].technologyID != id
  {
    if rows[0].technologyID == id then 0
    else
      assert exists k :: 0 <= k < |rows[1..]| && rows[1..][k].technologyID == id by {
        var k :| 0 <= k < |rows| && rows[k].technologyID == id;
        assert rows[1..][k - 1] == rows[k];
      }
      FirstOf(rows[1..], id) + 1
  }

  /** The grouping of one record more is one more step. */
  lemma {:induction false} GroupSnoc(rows: seq<SpeedRow>, i: nat)
    requires i < |rows|
    ensures Group(rows[..i + 1]) == Absorb(Group(rows[..i]), rows[i])
  {
    assert rows[..i + 1][..i] == rows[..i];
  }

  /**
   * GetCompatibleOptions' grouping loop: each record's technology entry is
   * created on first sight, its thickness appended after a scan for a
   * duplicate, and the capability flags raised in place.
   */
  method GroupByTechnology(speeds: seq<SpeedRow>) returns (techMap: map<nat, TechOption>)
    ensures techMap == Group(speeds)
  {
    techMap := map[];
    for i := 0 to |speeds|
      invariant techMap == Group(speeds[..i])
    {
      techMap := AddRecord(techMap, speeds[i]);
      GroupSnoc(speeds, i);
    }
    assert speeds[..|speeds|] == speeds;
  }

  /** The body of the grouping loop for one record. */
  method AddRecord(techMap: map<nat, TechOption>, s: SpeedRow) returns (m: map<nat, TechOption>)
    ensures m == Absorb(techMap, s)
  {
    var tech: TechOption;
    if s.technologyID in techMap {
      tech := techMap[s.technologyID];
    } else {
      tech := NewEntry(s);
    }

    var found := HasThickness(tech.thicknesses, s.thickness);
    if !found {
      tech := tech.(thicknesses := tech.thicknesses + [s.thickness]);
    }

    if s.cutSpeedMmMin.Some? && s.cutSpeedMmMin.value > 0.0 {
      tech := tech.(canCut := true);
    }
    if s.engraveSpeedMmMin.Some? && s.engraveSpeedMmMin.value > 0.0 {
      tech := tech.(canEngrave := true);
    }
    m := techMap[s.technologyID := tech];
  }

  /** The duplicate scan over a technology's thicknesses. */
  method HasThickness(ts: seq<real>, t: real) returns (found: bool)
    ensures found <==> t in ts
  {
    found := false;
    for j := 0 to |ts|
      invariant found <==> t in ts[..j]
    {
      if ts[j] == t {
        found := true;
        break;
      }
      assert ts[..j + 1] == ts[..j] + [ts[j]];
    }
    assert ts[..|ts|] == ts;
  }

  /** The grouping holds exactly the records' technologies, each under its own id. */
  lemma {:induction false} GroupKeys(rows: seq<SpeedRow>, id: nat)
    ensures id in Group(rows) <==> exists k :: 0 <= k < |rows| && rows[k].technologyID == id
    ensures id in Group(rows) ==> Group(rows)[id].id == id
    decreases |rows|
  {
    if rows != [] {
      var init := rows[..|rows| - 1];
      GroupKeys(init, id);
      if exists k :: 0 <= k < |rows| && rows[k].technologyID == id {
        var k :| 0 <= k < |rows| && rows[k].technologyID == id;
        if k < |init| {
          assert init[k] == rows[k];
        }
      }
      if exists k :: 0 <= k < |init| && init[k].technologyID == id {
        var k :| 0 <= k < |init| && init[k].technologyID == id;
        assert rows[k] == init[k];
      }
    }
  }

  /** The entry a record updates: its technology's, or a new one. */
  function EntryFor(m: map<nat, TechOption>, s: SpeedRow): TechOption
  {
    if s.technologyID in m then m[s.technologyID] else NewEntry(s)
  }

  /** What one step of the grouping does at one technology. */
  lemma {:induction false} AbsorbAt(m: map<nat, TechOption>, s: SpeedRow, id: nat)
    ensures id in Absorb(m, s) <==> id in m || id == s.technologyID
    ensures id != s.technologyID && id in m ==> Absorb(m, s)[id] == m[id]
    ensures (id == s.technologyID ==>
      Absorb(m, s)[id].thicknesses == AddThickness(EntryFor(m, s).thicknesses, s.thickness)
      && (Absorb(m, s)[id].canCut <==> EntryFor(m, s).canCut || Cuts(s))
      && (Absorb(m, s)[id].canEngrave <==> EntryFor(m, s).canEngrave || Engraves(s)))
  {
  }

  /** The grouping and the thickness list of a non-empty list of records, one record at a time. */
  lemma {:induction false} Unfold(rows: seq<SpeedRow>, id: nat)
    requires rows != []
    ensures Group(rows) == Absorb(Group(rows[..|rows| - 1]), rows[|rows| - 1])
    ensures (ThicknessesOf(rows, id) == ThicknessesOf(rows[..|rows| - 1], id)
      + (if rows[|rows| - 1].technologyID == id then [rows[|rows| - 1].thickness] else []))
  {
  }

  /** A technology's thicknesses are its records' thicknesses, once each, in first-seen order. */
  lemma {:induction false} GroupThicknesses(rows: seq<SpeedRow>, id: nat)
    requires id in Group(rows)
    ensures Group(rows)[id].thicknesses == Dedup(ThicknessesOf(rows, id))
    decreases |rows|
  {
    var init, last := rows[..|rows| - 1], rows[|rows| - 1];
    var g := Group(init);
    Unfold(rows, id);
    AbsorbAt(g, last, id);
    if last.technologyID == id {
      var before := ThicknessesOf(init, id);
      assert ThicknessesOf(rows, id) == before + [last.thickness];
      DedupSnoc(before, last.thickness);
      if id in g {
        GroupThicknesses(init, id);
        assert EntryFor(g, last).thicknesses == Dedup(before);
        assert Group(rows)[id].thicknesses == AddThickness(Dedup(before), last.thickness);
      } else {
        GroupKeys(init, id);
        NoneOfThisTechnology(init, id);
        assert EntryFor(g, last).thicknesses == [] == Dedup(before);
        assert Group(rows)[id].thicknesses == AddThickness(Dedup(before), last.thickness);
      }
      assert Group(rows)[id].thicknesses == Dedup(ThicknessesOf(rows, id));
    } else {
      var before := ThicknessesOf(init, id);
      assert ThicknessesOf(rows, id) == before + [];
      assert before + [] == before;
      assert Group(rows)[id] == g[id];
      GroupThicknesses(init, id);
    }
  }

  /**
   * A capability flag is raised exactly when one of the technology's records
   * has that speed above zero.
   */
  lemma {:induction false} GroupCapabilities(rows: seq<SpeedRow>, id: nat)
    requires id in Group(rows)
    ensures Group(rows)[id].canCut <==> exists k :: 0 <= k < |rows| && rows[k].technologyID == id && Cuts(rows[k])
    ensures Group(rows)[id].canEngrave <==> exists k :: 0 <= k < |rows| && rows[k].technologyID == id && Engraves(rows[k])
    decreases |rows|
  {
    var init, last := rows[..|rows| - 1], rows[|rows| - 1];
    assert rows == init + [last];
    var g := Group(init);
    Unfold(rows, id);
    AbsorbAt(g, last, id);
    if id in g {
      GroupCapabilities(init, id);
    } else {
      GroupKeys(init, id);
    }
    SomeRecordSnoc(init, last, id);
  }

  /** Some record of a technology cuts, or engraves, among the first ones or as the last one. */
  lemma {:induction false} SomeRecordSnoc(init: seq<SpeedRow>, last: SpeedRow, id: nat)
    ensures ((exists k :: 0 <= k < |init + [last]| && (init + [last])[k].technologyID == id && Cuts((init + [last])[k])) <==>
      (exists k :: 0 <= k < |init| && init[k].technologyID == id && Cuts(init[k])) || (last.technologyID == id && Cuts(last)))
    ensures ((exists k :: 0 <= k < |init + [last]| && (init + [last])[k].technologyID == id && Engraves((init + [last])[k])) <==>
      (exists k :: 0 <= k < |init| && init[k].technologyID == id && Engraves(init[k])) || (last.technologyID == id && Engraves(last)))
  {
    var rows := init + [last];
    assert forall k :: 0 <= k < |init| ==> rows[k] == init[k];
    assert rows[|init|] == last;
  }

  /** Without a record of a technology, there are none of its thicknesses. */
  lemma {:induction false} NoneOfThisTechnology(rows: seq<SpeedRow>, id: nat)
    requires forall k :: 0 <= k < |rows| ==> rows[k].technologyID != id
    ensures ThicknessesOf(rows, id) == []
    decreases |rows|
  {
    if rows != [] {
      NoneOfThisTechnology(rows[..|rows| - 1], id);
    }
  }

  lemma {:induction false} DedupSnoc(xs: seq<real>, t: real)
    ensures Dedup(xs + [t]) == AddThickness(Dedup(xs), t)
  {
    assert (xs + [t])[..|xs|] == xs;
  }

  /** A technology's entry is named after its first record. */
  lemma {:induction false} GroupNamesFromFirstRecord(rows: seq<SpeedRow>, id: nat)
    requires id in Group(rows)
    ensures exists k :: 0 <= k < |rows| && rows[k].technologyID == id
    ensures Group(rows)[id].name == rows[FirstOf(rows, id)].technologyName
    ensures Group(rows)[id].code == rows[FirstOf(rows, id)].technologyCode
    decreases |rows|
  {
    GroupKeys(rows, id);
    var init, last := rows[..|rows| - 1], rows[|rows| - 1];
    assert rows == init + [last];
    var g := Group(init);
    Unfold(rows, id);
    AbsorbKeepsNames(g, last, id);
    GroupKeys(init, id);
    if id in g {
      GroupNamesFromFirstRecord(init, id);
      FirstOfPrefix(init, last, id);
    } else {
      FirstIsLast(init, last, id);
    }
  }

  /** A step of the grouping never renames an entry; a new one takes its record's names. */
  lemma {:induction false} AbsorbKeepsNames(m: map<nat, TechOption>, s: SpeedRow, id: nat)
    requires id in Absorb(m, s)
    ensures id in m ==> Absorb(m, s)[id].name == m[id].name && Absorb(m, s)[id].code == m[id].code
    ensures id !in m ==> Absorb(m, s)[id].name == s.technologyName && Absorb(m, s)[id].code == s.technologyCode
  {
  }

  /** Extending the records keeps the first record of a technology already present. */
  lemma {:induction false} FirstOfPrefix(init: seq<SpeedRow>, last: SpeedRow, id: nat)
    requires exists k :: 0 <= k < |init| && init[k].technologyID == id
    ensures exists k :: 0 <= k < |init + [last]| && (init + [last])[k].technologyID == id
    ensures FirstOf(init + [last], id) == FirstOf(init, id)
  {
    var rows := init + [last];
    var k :| 0 <= k < |init| && init[k].technologyID == id;
    assert rows[k] == init[k];
    var a, b := FirstOf(rows, id), FirstOf(init, id);
    assert rows[b] == init[b];
  }

  /** A technology whose only record is the last one has it as its first. */
  lemma {:induction false} FirstIsLast(init: seq<SpeedRow>, last: SpeedRow, id: nat)
    requires last.technologyID == id
    requires forall k :: 0 <= k < |init| ==> init[k].technologyID != id
    ensures exists k :: 0 <= k < |init + [last]| && (init + [last])[k].technologyID == id
    ensures FirstOf(init + [last], id) == |init|
  {
    var rows := init + [last];
    assert rows[|init|] == last;
  }

  /**
   * The properties of the response: every record's thickness is listed
   * under its technology, every listed thickness comes from a record of that
   * technology, and no thickness is listed twice.
   */
  lemma {:induction false} ThicknessesListed(rows: seq<SpeedRow>, id: nat)
    requires id in Group(rows)
    ensures NoDuplicates(Group(rows)[id].thicknesses)
    ensures (forall t :: t in Group(rows)[id].thicknesses <==>
      exists k :: 0 <= k < |rows| && rows[k].technologyID == id && rows[k].thickness == t)
  {
    GroupThicknesses(rows, id);
    forall t ensures t in ThicknessesOf(rows, id) <==> exists k :: 0 <= k < |rows| && rows[k].technologyID == id && rows[k].thickness == t {
      ThicknessesOfMembers(rows, id, t);
    }
  }

  lemma {:induction false} ThicknessesOfMembers(rows: seq<SpeedRow>, id: nat, t: real)
    ensures t in ThicknessesOf(rows, id) <==> exists k :: 0 <= k < |rows| && rows[k].technologyID == id && rows[k].thickness == t
    decreases |rows|
  {
    if rows != [] {
      var init := rows[..|rows| - 1];
      ThicknessesOfMembers(init, id, t);
      assert forall k :: 0 <= k < |init| ==> init[k] == rows[k];
    }
  }
}
