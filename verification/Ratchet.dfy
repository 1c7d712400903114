/**
 The duplication baseline: rewriting it from a scan, and the growth check a later scan is
 held to.
 */
module Ratchet {
  /** Same-named helpers: each name with the files that define it. */
  type Groups = map<string, seq<string>>

  /** A registered exception: these files may share this name. */
  datatype Row = Row(name: string, modules: seq<string>)

  /** A pair that must stay different. */
  datatype Differ = Differ(pair: (string, string), note: string)

  datatype Scan = Scan(pairs: set<(string, string)>, groups: Groups, sites: seq<string>)

  datatype Baseline = Baseline(
    pairs: set<(string, string)>, groups: Groups, sites: seq<string>, distinct: seq<Row>, mustDiffer: seq<Differ>)

  // ---- Exceptions ------------------------------------------------------------------------

  ghost predicate Exempt(rows: seq<Row>, name: string, file: string) {
    exists j :: 0 <= j < |rows| && rows[j].name == name && file in rows[j].modules
  }

  function Lookup(names: map<string, set<string>>, name: string): set<string> {
    if name in names then names[name] else {}
  }

  function FilesOf(list: seq<string>): set<string> {
    set i | 0 <= i < |list| :: list[i]
  }

  method RegisteredSameName(rows: seq<Row>) returns (names: map<string, set<string>>)
    ensures forall name, file :: file in Lookup(names, name) <==> Exempt(rows, name, file)
  {
    names := map[];
    for j := 0 to |rows|
      invariant forall name, file :: file in Lookup(names, name) <==> Exempt(rows[..j], name, file)
    {
      ghost var before := names;
      var row := rows[j];
      names := names[row.name := Lookup(names, row.name) + FilesOf(row.modules)];
      forall name, file ensures file in Lookup(names, name) <==> Exempt(rows[..j + 1], name, file) {
        ExemptMore(rows[..j], row, name, file);
        assert rows[..j + 1] == rows[..j] + [row];
        assert file in FilesOf(row.modules) <==> file in row.modules;
        assert file in Lookup(names, name) <==>
               file in Lookup(before, name) || (name == row.name && file in FilesOf(row.modules));
      }
    }
    assert rows[..|rows|] == rows;
  }

  lemma ExemptMore(rows: seq<Row>, row: Row, name: string, file: string)
    ensures Exempt(rows + [row], name, file) <==> Exempt(rows, name, file) || (row.name == name && file in row.modules)
  {
    var more := rows + [row];
    assert more[|rows|] == row;
    assert forall j :: 0 <= j < |rows| ==> more[j] == rows[j];
  }

  // ---- Growth ------------------------------------------------------------------------------

  function Members(groups: Groups, name: string): seq<string> {
    if name in groups then groups[name] else []
  }

  /** `file` defines `name` although neither the baseline nor an exception allows it. */
  ghost predicate Grown(live: Groups, base: Groups, rows: seq<Row>, name: string, file: string) {
    file in Members(live, name) && file !in Members(base, name) && !Exempt(rows, name, file)
  }

  /** `same_name_growth`. */
  function Growth(live: Groups, base: Groups, exempt: map<string, set<string>>): map<string, set<string>> {
    map name | name in live && FilesOf(live[name]) - FilesOf(Members(base, name)) - Lookup(exempt, name) != {}
      :: FilesOf(live[name]) - FilesOf(Members(base, name)) - Lookup(exempt, name)
  }

  /** The check reports exactly the definitions that grew. */
  lemma GrowthIff(live: Groups, base: Groups, rows: seq<Row>, exempt: map<string, set<string>>, name: string, file: string)
    requires forall n, f :: f in Lookup(exempt, n) <==> Exempt(rows, n, f)
    ensures file in Lookup(Growth(live, base, exempt), name) <==> Grown(live, base, rows, name, file)
  {
    assert file in FilesOf(Members(live, name)) <==> file in Members(live, name);
    assert file in FilesOf(Members(base, name)) <==> file in Members(base, name);
  }

  // ---- Rewriting -----------------------------------------------------------------------------

  /** The files of one group that no exception covers, in order. */
  function Kept(files: seq<string>, exempt: set<string>): (kept: seq<string>)
    ensures forall file :: file in kept <==> file in files && file !in exempt
  {
    if files == [] then []
    else (if files[0] in exempt then [] else [files[0]]) + Kept(files[1..], exempt)
  }

  predicate Live(row: Row, groups: Groups) {
    exists i :: 0 <= i < |row.modules| && row.modules[i] in Members(groups, row.name)
  }

  /** The exceptions that still cover something. */
  function LiveRows(rows: seq<Row>, groups: Groups): seq<Row> {
    if rows == [] then [] else (if Live(rows[0], groups) then [rows[0]] else []) + LiveRows(rows[1..], groups)
  }

  function StillPaired(rows: seq<Differ>, pairs: set<(string, string)>): seq<Differ> {
    if rows == [] then []
    else (if rows[0].pair in pairs then [rows[0]] else []) + StillPaired(rows[1..], pairs)
  }

  function Trimmed(groups: Groups, exempt: map<string, set<string>>): Groups {
    map name | name in groups && Kept(groups[name], Lookup(exempt, name)) != [] ::
      Kept(groups[name], Lookup(exempt, name))
  }

  /** `b` is what writing the baseline from `scan` over `prior` produces. */
  ghost predicate Rewrites(b: Baseline, prior: Baseline, scan: Scan) {
    && b.pairs == scan.pairs && b.sites == scan.sites
    && b.distinct == LiveRows(prior.distinct, scan.groups)
    && b.mustDiffer == StillPaired(prior.mustDiffer, scan.pairs)
    && exists exempt ::
         (forall name, file :: file in Lookup(exempt, name) <==> Exempt(prior.distinct, name, file))
         && b.groups == Trimmed(scan.groups, exempt)
  }

  /** The loop over the scanned groups. */
  method Trim(groups: Groups, exempt: map<string, set<string>>) returns (live: Groups)
    ensures live == Trimmed(groups, exempt)
  {
    live := map[];
    var left := groups.Keys;
    while left != {}
      invariant left <= groups.Keys
      invariant forall name :: name in live <==> name in groups && name !in left && Kept(groups[name], Lookup(exempt, name)) != []
      invariant forall name :: name in live ==> live[name] == Kept(groups[name], Lookup(exempt, name))
    {
      var name :| name in left;
      var members := Kept(groups[name], Lookup(exempt, name));
      if members != [] { live := live[name := members]; }
      left := left - {name};
    }
  }

  method WriteBaseline(prior: Baseline, scan: Scan) returns (b: Baseline)
    ensures Rewrites(b, prior, scan)
  {
    var exempt := RegisteredSameName(prior.distinct);
    var groups := Trim(scan.groups, exempt);
    b := Baseline(scan.pairs, groups, scan.sites, LiveRows(prior.distinct, scan.groups),
                  StillPaired(prior.mustDiffer, scan.pairs));
  }

  // ---- What the ratchet promises ---------------------------------------------------------

  lemma {:induction false} LiveRowsHold(rows: seq<Row>, groups: Groups, row: Row)
    ensures row in LiveRows(rows, groups) <==> row in rows && Live(row, groups)
  {
    hide Live;
    if rows != [] {
      LiveRowsHold(rows[1..], groups, row);
      assert rows == [rows[0]] + rows[1..];
    }
  }

  lemma ExemptHasRow(rows: seq<Row>, name: string, file: string)
    ensures Exempt(rows, name, file) <==> exists row :: row in rows && row.name == name && file in row.modules
  {
    if Exempt(rows, name, file) {
      var j :| 0 <= j < |rows| && rows[j].name == name && file in rows[j].modules;
      assert rows[j] in rows;
    }
  }

  /** Dropping dead exceptions frees no file the scan still finds. */
  lemma LivenessKeepsExemptions(rows: seq<Row>, groups: Groups, name: string, file: string)
    requires file in Members(groups, name)
    ensures Exempt(LiveRows(rows, groups), name, file) <==> Exempt(rows, name, file)
  {
    ExemptHasRow(rows, name, file);
    ExemptHasRow(LiveRows(rows, groups), name, file);
    forall row ensures row in LiveRows(rows, groups) <==> row in rows && Live(row, groups) {
      LiveRowsHold(rows, groups, row);
    }
    forall row | row in rows && row.name == name && file in row.modules ensures Live(row, groups) {
      var i :| 0 <= i < |row.modules| && row.modules[i] == file;
    }
  }

  lemma RewrittenMembers(b: Baseline, prior: Baseline, scan: Scan, name: string, file: string)
    requires Rewrites(b, prior, scan)
    ensures file in Members(b.groups, name) <==> file in Members(scan.groups, name) && !Exempt(prior.distinct, name, file)
  {
    hide Exempt;
    var exempt :| (forall n, f :: f in Lookup(exempt, n) <==> Exempt(prior.distinct, n, f))
                  && b.groups == Trimmed(scan.groups, exempt);
  }

  /** Right after a rewrite, the growth check on the same scan reports nothing. */
  lemma NoGrowthAfterRewrite(b: Baseline, prior: Baseline, scan: Scan, exempt: map<string, set<string>>)
    requires Rewrites(b, prior, scan)
    requires forall name, file :: file in Lookup(exempt, name) <==> Exempt(b.distinct, name, file)
    ensures Growth(scan.groups, b.groups, exempt) == map[]
  {
    hide Exempt;
    hide Rewrites;
    forall name, file | file in Members(scan.groups, name)
      ensures file in Members(b.groups, name) || file in Lookup(exempt, name)
    {
      RewrittenMembers(b, prior, scan, name, file);
      RewrittenRows(b, prior, scan);
      LivenessKeepsExemptions(prior.distinct, scan.groups, name, file);
    }
    forall name | name in scan.groups
      ensures FilesOf(scan.groups[name]) <= FilesOf(Members(b.groups, name)) + Lookup(exempt, name)
    {
      forall file | file in FilesOf(scan.groups[name])
        ensures file in FilesOf(Members(b.groups, name)) || file in Lookup(exempt, name)
      {
        assert file in Members(scan.groups, name);
        assert file in Members(b.groups, name) <==> file in FilesOf(Members(b.groups, name));
      }
    }
  }

  lemma RewrittenRows(b: Baseline, prior: Baseline, scan: Scan)
    requires Rewrites(b, prior, scan)
    ensures b.distinct == LiveRows(prior.distinct, scan.groups)
  {
  }

  lemma {:induction false} LiveRowsTwice(rows: seq<Row>, groups: Groups)
    ensures LiveRows(LiveRows(rows, groups), groups) == LiveRows(rows, groups)
  {
    hide Live;
    if rows != [] {
      LiveRowsTwice(rows[1..], groups);
      if Live(rows[0], groups) {
        assert LiveRows(rows, groups) == [rows[0]] + LiveRows(rows[1..], groups);
        assert LiveRows(rows, groups)[1..] == LiveRows(rows[1..], groups);
      } else {
        assert LiveRows(rows, groups) == LiveRows(rows[1..], groups);
      }
    }
  }

  lemma {:induction false} StillPairedTwice(rows: seq<Differ>, pairs: set<(string, string)>)
    ensures StillPaired(StillPaired(rows, pairs), pairs) == StillPaired(rows, pairs)
  {
    if rows != [] {
      StillPairedTwice(rows[1..], pairs);
      if rows[0].pair in pairs {
        assert StillPaired(rows, pairs) == [rows[0]] + StillPaired(rows[1..], pairs);
        assert StillPaired(rows, pairs)[1..] == StillPaired(rows[1..], pairs);
      } else {
        assert StillPaired(rows, pairs) == StillPaired(rows[1..], pairs);
      }
    }
  }

  /** Two exemption sets that agree on the files of a group keep the same ones. */
  lemma {:induction false} KeptAgrees(files: seq<string>, a: set<string>, b: set<string>)
    requires forall file :: file in files ==> (file in a <==> file in b)
    ensures Kept(files, a) == Kept(files, b)
  {
    if files != [] {
      assert files[0] in files;
      assert forall file :: file in files[1..] ==> file in files;
      KeptAgrees(files[1..], a, b);
    }
  }

  lemma TrimmedAgrees(groups: Groups, a: map<string, set<string>>, b: map<string, set<string>>)
    requires forall name, file :: file in Members(groups, name) ==> (file in Lookup(a, name) <==> file in Lookup(b, name))
    ensures Trimmed(groups, a) == Trimmed(groups, b)
  {
    hide Lookup;
    hide Kept;
    forall name | name in groups ensures Kept(groups[name], Lookup(a, name)) == Kept(groups[name], Lookup(b, name)) {
      assert Members(groups, name) == groups[name];
      KeptAgrees(groups[name], Lookup(a, name), Lookup(b, name));
    }
  }

  /** Rewriting a rewritten baseline from the same scan changes nothing. */
  lemma RewriteIsFixpoint(b: Baseline, again: Baseline, prior: Baseline, scan: Scan)
    requires Rewrites(b, prior, scan) && Rewrites(again, b, scan)
    ensures again == b
  {
    hide Exempt;
    LiveRowsTwice(prior.distinct, scan.groups);
    StillPairedTwice(prior.mustDiffer, scan.pairs);
    var first :| (forall name, file :: file in Lookup(first, name) <==> Exempt(prior.distinct, name, file))
                 && b.groups == Trimmed(scan.groups, first);
    var second :| (forall name, file :: file in Lookup(second, name) <==> Exempt(b.distinct, name, file))
                  && again.groups == Trimmed(scan.groups, second);
    forall name, file | file in Members(scan.groups, name)
      ensures file in Lookup(first, name) <==> file in Lookup(second, name)
    {
      LivenessKeepsExemptions(prior.distinct, scan.groups, name, file);
    }
    TrimmedAgrees(scan.groups, first, second);
  }

  /** The ratchet: the growth check passes exactly when a rewrite would only shrink the groups. */
  lemma NoGrowthIffShrinks(b: Baseline, prior: Baseline, scan: Scan)
    requires Rewrites(b, prior, scan)
    ensures (forall name, file :: !Grown(scan.groups, prior.groups, prior.distinct, name, file)) <==>
            (forall name, file :: file in Members(b.groups, name) ==> file in Members(prior.groups, name))
  {
    hide Exempt;
    forall name, file
      ensures file in Members(b.groups, name) <==> file in Members(scan.groups, name) && !Exempt(prior.distinct, name, file)
    {
      RewrittenMembers(b, prior, scan, name, file);
    }
    hide Rewrites;
    hide Members;
    forall name, file
      ensures Grown(scan.groups, prior.groups, prior.distinct, name, file) <==>
              file in Members(b.groups, name) && file !in Members(prior.groups, name)
    {
    }
  }
}
