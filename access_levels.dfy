/** GitLab's role table: the access-level codes 10 to 50 and the role names the
    components show for them. Both components carry their own `switch` over
    these codes; each is proved equal to this table. */
module AccessLevels {

  datatype Role = Role(level: int, name: string)

  /** The fixed table, from the lowest role to the highest. */
  const RoleTable: seq<Role> := [
    Role(10, "Guest"),
    Role(20, "Reporter"),
    Role(30, "Developer"),
    Role(40, "Maintainer"),
    Role(50, "Owner")
  ]

  /** The name shown for any code that is not in the table. */
  const UnknownRole := "Unknown"

  /** The name of the first entry of `table` with code `level`, or
      `UnknownRole` when there is none. */
  function LookupRole(table: seq<Role>, level: int): (name: string)
    ensures (exists i :: 0 <= i < |table| && table[i].level == level) || name == UnknownRole
    ensures name == UnknownRole || exists i :: 0 <= i < |table| && table[i] == Role(level, name)
    ensures forall i | 0 <= i < |table| && table[i].level == level && (forall j | 0 <= j < i :: table[j].level != level)
              :: name == table[i].name
  {
    if table == [] then UnknownRole
    else if table[0].level == level then
      assert table[0] == Role(level, table[0].name);
      table[0].name
    else
      var name := LookupRole(table[1..], level);
      assert forall i :: 0 <= i < |table| - 1 ==> table[1..][i] == table[i + 1];
      name
  }

  /** The codes that have a name of their own. */
  predicate IsKnownLevel(level: int) {
    level == 10 || level == 20 || level == 30 || level == 40 || level == 50
  }

  /** No two entries of the table share a name. */
  lemma EntryOfName(i: int, j: int)
    requires 0 <= i < |RoleTable| && 0 <= j < |RoleTable|
    requires RoleTable[i].name == RoleTable[j].name
    ensures i == j
  {
    var a, b := RoleTable[i].name, RoleTable[j].name;
    assert |a| == |b| && a[0] == b[0];
  }

  /** No two codes of the table share a name, and none is called "Unknown", so
      a shown name other than "Unknown" tells which code it came from. */
  lemma {:induction false} RoleNamesDistinct(l1: int, l2: int)
    requires LookupRole(RoleTable, l1) == LookupRole(RoleTable, l2) != UnknownRole
    ensures l1 == l2 && IsKnownLevel(l1)
  {
    var n := LookupRole(RoleTable, l1);
    var i1 :| 0 <= i1 < |RoleTable| && RoleTable[i1] == Role(l1, n);
    var i2 :| 0 <= i2 < |RoleTable| && RoleTable[i2] == Role(l2, n);
    EntryOfName(i1, i2);
  }
}
