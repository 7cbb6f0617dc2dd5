/** Browser-side logic the pages rely on: which pages a role may open, the
    "time ago" rendering, the stock-status filter of the inventory page and
    the bounded list of prescriptions saved in the browser. */
module Client {
  import opened Common
  import opened Text
  import MedicineModel

  /** `rolePermissions`: the pages listed for each known role, by lower-case
      role name. */
  function RolePermissions(role: string): (r: Option<seq<string>>)
    ensures r.Some? <==> role in {"admin", "doctor", "pharmacist", "staff"}
    ensures r.Some? ==> forall p :: p in r.value ==> p in {"dashboard", "prescriptions", "billing", "inventory"}
    ensures r.Some? ==> "prescriptions" in r.value
    ensures r.Some? ==> ("dashboard" in r.value <==> role in {"admin", "staff"})
  {
    if role == "admin" then Some(["dashboard", "prescriptions", "billing", "inventory"])
    else if role == "doctor" then Some(["prescriptions"])
    else if role == "pharmacist" then Some(["prescriptions", "billing", "inventory"])
    else if role == "staff" then Some(["dashboard", "prescriptions", "billing"])
    else None
  }

  /** `hasAccessToPage`. `role` is `None` when nobody is signed in or the
      user has no role; an empty role counts as none. An unknown role may
      open the dashboard only. */
  function HasAccessToPage(role: Option<string>, pageName: string): (r: bool)
    ensures role.None? || role.value == "" ==> !r
    ensures role.Some? && role.value != "" && RolePermissions(ToLower(role.value)).None? ==> (r <==> pageName == "dashboard")
  {
    if role.None? || role.value == "" then false
    else
      var allowed := match RolePermissions(ToLower(role.value))
                     case Some(pages) => pages
                     case None => ["dashboard"];
      pageName in allowed
  }

  datatype Role = Admin | Doctor | Pharmacist | Staff

  datatype Page = Dashboard | Prescriptions | Billing | Inventory

  function PageName(p: Page): string
  {
    match p
    case Dashboard => "dashboard"
    case Prescriptions => "prescriptions"
    case Billing => "billing"
    case Inventory => "inventory"
  }

  function RoleName(r: Role): string
  {
    match r
    case Admin => "admin"
    case Doctor => "doctor"
    case Pharmacist => "pharmacist"
    case Staff => "staff"
  }

  /** The access policy as a table: admins open everything, doctors only
      prescriptions, pharmacists everything but the dashboard, staff
      everything but the inventory. */
  predicate MayOpen(r: Role, p: Page)
  {
    match r
    case Admin => true
    case Doctor => p == Prescriptions
    case Pharmacist => p != Dashboard
    case Staff => p != Inventory
  }

  /** The lookup implements the table for every spelling of a known role,
      whatever its letter case. */
  lemma AccessFollowsTable(role: string, r: Role, p: Page)
    requires ToLower(role) == RoleName(r)
    ensures HasAccessToPage(Some(role), PageName(p)) <==> MayOpen(r, p)
  {
    assert role != "" by {
      assert |ToLower(role)| == |RoleName(r)| > 0;
    }
  }

  /** Letter case of the role never matters. */
  lemma AccessIgnoresCase(role: string, pageName: string)
    ensures HasAccessToPage(Some(role), pageName) == HasAccessToPage(Some(ToLower(role)), pageName)
  {
    ToLowerIdempotent(role);
    assert |ToLower(role)| == |role|;
  }

  /** Whole elapsed seconds, minutes, hours or days. */
  datatype Elapsed = Seconds(n: int) | Minutes(n: int) | Hours(n: int) | Days(n: int)

  /** The bucket `formatTimeAgo` picks for a timestamp `time` seen at `now`,
      both in milliseconds. The elapsed seconds are rounded down, so a time
      in the future gives a negative number of seconds. Each bucket holds
      the whole number of its unit that fits in the elapsed time. */
  function ElapsedSince(now: int, time: int): (e: Elapsed)
    ensures var d := (now - time) / 1000;
      && 1000 * d <= now - time < 1000 * d + 1000
      && (e.Seconds? <==> d < 60)
      && (e.Minutes? <==> 60 <= d < 3600)
      && (e.Hours? <==> 3600 <= d < 86400)
      && (e.Days? <==> 86400 <= d)
      && (e.Seconds? ==> e.n == d)
      && (e.Minutes? ==> 1 <= e.n < 60 && 60 * e.n <= d < 60 * e.n + 60)
      && (e.Hours? ==> 1 <= e.n < 24 && 3600 * e.n <= d < 3600 * e.n + 3600)
      && (e.Days? ==> 1 <= e.n && 86400 * e.n <= d < 86400 * e.n + 86400)
  {
    // Dafny's division rounds down for a positive divisor, as Math.floor does.
    var d := (now - time) / 1000;
    if d < 60 then Seconds(d)
    else if d < 3600 then Minutes(d / 60)
    else if d < 86400 then Hours(d / 3600)
    else Days(d / 86400)
  }

  function Render(e: Elapsed): string
  {
    match e
    case Seconds(n) => IntToString(n) + " seconds ago"
    case Minutes(n) => IntToString(n) + " minutes ago"
    case Hours(n) => IntToString(n) + " hours ago"
    case Days(n) => IntToString(n) + " days ago"
  }

  /** `formatTimeAgo`. */
  function FormatTimeAgo(now: int, time: int): string
  {
    Render(ElapsedSince(now, time))
  }

  /** The bucket edges: 59.999 s is still seconds, one minute is a minute,
      and a timestamp one millisecond ahead reads as minus one second. */
  lemma ElapsedEdges()
    ensures ElapsedSince(59999, 0) == Seconds(59)
    ensures ElapsedSince(60000, 0) == Minutes(1)
    ensures ElapsedSince(3599999, 0) == Minutes(59)
    ensures ElapsedSince(86400000, 0) == Days(1)
    ensures ElapsedSince(0, 1) == Seconds(-1)
  {
  }

  /** The stock-status branch of `filterMedicines`. A missing level reads
      as 0; an empty or unknown filter value lets every medicine through. */
  predicate MatchesStockFilter(filter: string, current: Option<int>, minimum: Option<int>)
  {
    var c := if current.Some? then current.value else 0;
    var m := if minimum.Some? then minimum.value else 0;
    if filter == "in-stock" then c > m
    else if filter == "low-stock" then c <= m && c > 0
    else if filter == "out-of-stock" then c == 0
    else true
  }

  /** For stock levels the schema allows, each medicine passes exactly one of
      the three filters, and the one that agrees with its `stockStatus`. */
  lemma StockFilterAgreesWithStatus(s: MedicineModel.StockLevels)
    requires MedicineModel.StockInBounds(s)
    ensures MatchesStockFilter("in-stock", Some(s.current), Some(s.minimum)) <==> MedicineModel.StockStatusOf(s) == MedicineModel.InStock
    ensures MatchesStockFilter("low-stock", Some(s.current), Some(s.minimum)) <==> MedicineModel.StockStatusOf(s) == MedicineModel.LowStock
    ensures MatchesStockFilter("out-of-stock", Some(s.current), Some(s.minimum)) <==> MedicineModel.StockStatusOf(s) == MedicineModel.OutOfStock
  {
  }

  /** The three named filters never overlap when the minimum is not
      negative, whatever the current level. */
  lemma StockFiltersDisjoint(current: Option<int>, minimum: Option<int>)
    requires minimum.Some? ==> minimum.value >= 0
    ensures !(MatchesStockFilter("in-stock", current, minimum) && MatchesStockFilter("low-stock", current, minimum))
    ensures !(MatchesStockFilter("in-stock", current, minimum) && MatchesStockFilter("out-of-stock", current, minimum))
    ensures !(MatchesStockFilter("low-stock", current, minimum) && MatchesStockFilter("out-of-stock", current, minimum))
  {
  }

  datatype SavedPrescription = SavedPrescription(text: string, date: string, id: int)

  const SavedLimit: nat := 10

  /** The newest `SavedLimit` entries of a newest-first list. */
  function Bounded(list: seq<SavedPrescription>): (r: seq<SavedPrescription>)
    ensures |r| == if |list| > SavedLimit then SavedLimit else |list|
    ensures r == list[..|r|]
  {
    if |list| > SavedLimit then list[..SavedLimit] else list
  }

  /** A save puts the entry first and keeps the newest entries up to ten. */
  function AfterSave(list: seq<SavedPrescription>, entry: SavedPrescription): (r: seq<SavedPrescription>)
    ensures |r| == if |list| < SavedLimit then |list| + 1 else SavedLimit
    ensures r[0] == entry && r[1..] == list[..|r| - 1]
  {
    Bounded([entry] + list)
  }

  function Reversed(s: seq<SavedPrescription>): seq<SavedPrescription>
  {
    if s == [] then [] else Reversed(s[1..]) + [s[0]]
  }

  /** Saving entries one after another from any list leaves the newest ten
      of them all and of the list, newest first: bounding after each save
      loses nothing a single bound at the end would keep. */
  lemma {:induction false} SavesKeepNewest(list: seq<SavedPrescription>, entries: seq<SavedPrescription>)
    requires entries != []
    ensures SaveAll(list, entries) == Bounded(Reversed(entries) + list)
    decreases |entries|
  {
    var last := entries[|entries| - 1];
    var init := entries[..|entries| - 1];
    ReversedOfSnoc(init, last);
    assert entries == init + [last];
    var x := Reversed(init) + list;
    assert [last] + x == Reversed(entries) + list;
    if init == [] {
      assert SaveAll(list, init) == list;
    } else {
      SavesKeepNewest(list, init);
      assert SaveAll(list, entries) == Bounded([last] + Bounded(x));
      if |x| > SavedLimit {
        assert Bounded([last] + x) == [last] + x[..SavedLimit - 1];
        assert Bounded([last] + Bounded(x)) == [last] + x[..SavedLimit - 1];
      } else {
        assert Bounded(x) == x;
      }
    }
  }

  /** The list after saving `entries` in order, one save each. */
  function SaveAll(list: seq<SavedPrescription>, entries: seq<SavedPrescription>): seq<SavedPrescription>
  {
    if entries == [] then list
    else AfterSave(SaveAll(list, entries[..|entries| - 1]), entries[|entries| - 1])
  }

  lemma {:induction false} ReversedOfSnoc(s: seq<SavedPrescription>, x: SavedPrescription)
    ensures Reversed(s + [x]) == [x] + Reversed(s)
    decreases |s|
  {
    if s != [] {
      assert (s + [x])[1..] == s[1..] + [x];
      ReversedOfSnoc(s[1..], x);
    }
  }

  /** The `savedPrescriptions` list of the page. */
  class SavedPrescriptions {
    var saved: seq<SavedPrescription>

    /** The list as read back from browser storage, of any length. */
    constructor (stored: seq<SavedPrescription>)
      ensures saved == stored
    {
      saved := stored;
    }

    /** `savePrescriptionLocally`: `unshift`, then cut back to ten. The clock
        supplies `date` and `id`. */
    method Save(text: string, date: string, id: int)
      modifies this
      ensures saved == AfterSave(old(saved), SavedPrescription(text, date, id))
    {
      saved := [SavedPrescription(text, date, id)] + saved;
      if |saved| > SavedLimit {
        saved := saved[..SavedLimit];
      }
    }
  }
}
