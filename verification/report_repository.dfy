/** ReportRepository: repair reports kept in a list, with ids handed out
    from a counter that starts at 1. */
module ReportRepositories {
  import opened Common
  import opened Filters

  /** A repair report; the id is missing until the first save. */
  datatype Report = Report(
    id: Option<int>,
    technicianName: string,
    detail: string,
    repairDate: Day,
    status: string)

  function HasId(id: int): Report -> bool
  {
    (r: Report) => r.id == Some(id)
  }

  /** The position of the first report carrying `id`. */
  function FirstWithId(s: seq<Report>, id: int): (r: Option<nat>)
    ensures r.Some? ==> r.value < |s| && s[r.value].id == Some(id)
    ensures r.Some? ==> forall j :: 0 <= j < r.value ==> s[j].id != Some(id)
    ensures r.None? <==> forall j :: 0 <= j < |s| ==> s[j].id != Some(id)
  {
    FirstIndex(s, HasId(id))
  }

  /** A save of a report with an id: the first report with that id is
      replaced in place; an unknown id changes nothing. */
  function ReplaceById(s: seq<Report>, report: Report): (t: seq<Report>)
    requires report.id.Some?
    ensures |t| == |s|
    ensures forall i :: 0 <= i < |s| ==> t[i].id == s[i].id
    ensures FirstWithId(s, report.id.value).None? ==> t == s
    ensures FirstWithId(s, report.id.value).Some? ==>
              var k := FirstWithId(s, report.id.value).value;
              t[k] == report && forall i :: 0 <= i < |s| && i != k ==> t[i] == s[i]
  {
    match FirstWithId(s, report.id.value)
    case None => s
    case Some(k) => s[k := report]
  }

  /** The tests the queries filter by. */
  function Keeps(id: int): Report -> bool
  {
    (r: Report) => r.id != Some(id)
  }

  function ByName(term: string): Report -> bool
  {
    (r: Report) => ContainsSubstring(Lower(r.technicianName), Lower(term))
  }

  function ByStatus(status: string): Report -> bool
  {
    (r: Report) => Lower(r.status) == Lower(status)
  }

  function ByNameAndStatus(term: string, status: string): Report -> bool
  {
    Both(ByName(term), ByStatus(status))
  }

  function OnDate(date: Day): Report -> bool
  {
    (r: Report) => r.repairDate == date
  }

  function Between(startDate: Day, endDate: Day): Report -> bool
  {
    (r: Report) => !(r.repairDate < startDate) && !(r.repairDate > endDate)
  }

  /** reportData without the reports that carry `id`. */
  function WithoutId(s: seq<Report>, id: int): (t: seq<Report>)
    ensures forall r :: r in t <==> r in s && r.id != Some(id)
  {
    Filter(s, Keeps(id))
  }

  class ReportRepository {
    var reportData: seq<Report>
    var nextId: int

    /** Every stored report has an id below the counter, no two share one,
        and the counter never goes below 1. */
    ghost predicate Valid()
      reads this
    {
      && nextId >= 1
      && (forall i :: 0 <= i < |reportData| ==>
            reportData[i].id.Some? && 1 <= reportData[i].id.value < nextId)
      && (forall i, j :: 0 <= i < j < |reportData| ==> reportData[i].id != reportData[j].id)
    }

    constructor ()
      ensures Valid() && reportData == [] && nextId == 1
    {
      reportData := [];
      nextId := 1;
    }

    /** findAll */
    function FindAll(): (r: seq<Report>)
      reads this
      ensures r == reportData
    {
      reportData
    }

    /** findById: the first report with the id. */
    function FindById(id: int): (r: Option<Report>)
      reads this
      ensures r.Some? <==> exists i :: 0 <= i < |reportData| && reportData[i].id == Some(id)
      ensures r.Some? ==> r.value in reportData && r.value.id == Some(id)
    {
      match FirstWithId(reportData, id)
      case None => None
      case Some(k) => Some(reportData[k])
    }

    /** save: a new report gets the next id and is appended; a report with an
        id replaces the stored one with that id, and is dropped when there
        is none. */
    method Save(report: Report) returns (saved: Report)
      requires Valid()
      modifies this
      ensures Valid()
      ensures report.id.None? ==>
                && saved == report.(id := Some(old(nextId)))
                && reportData == old(reportData) + [saved]
                && nextId == old(nextId) + 1
      ensures report.id.Some? ==>
                saved == report && nextId == old(nextId) && reportData == ReplaceById(old(reportData), report)
    {
      if report.id.None? {
        saved := report.(id := Some(nextId));
        nextId := nextId + 1;
        reportData := reportData + [saved];
        return;
      }
      saved := report;
      var i := 0;
      while i < |reportData|
        invariant 0 <= i <= |reportData|
        invariant reportData == old(reportData)
        invariant forall j :: 0 <= j < i ==> reportData[j].id != report.id
      {
        if reportData[i].id == report.id {
          reportData := reportData[i := report];
          break;
        }
        i := i + 1;
      }
    }

    /** deleteById: every report with the id goes, and nothing else. */
    method DeleteById(id: int)
      requires Valid()
      modifies this
      ensures Valid() && nextId == old(nextId)
      ensures reportData == WithoutId(old(reportData), id)
      ensures FindById(id).None?
    {
      reportData := WithoutId(reportData, id);
      assert forall i :: 0 <= i < |reportData| ==> reportData[i] in old(reportData);
      var key := (r: Report) => r.id;
      assert DistinctKeys(old(reportData), key);
      FilterKeepsDistinct(old(reportData), Keeps(id), key);
      forall i, j | 0 <= i < j < |reportData|
        ensures reportData[i].id != reportData[j].id
      {
        assert key(reportData[i]) != key(reportData[j]);
      }
    }

    /** findByTechnicianNameContainingIgnoreCase */
    function FindByTechnicianName(name: Option<string>): (r: seq<Report>)
      reads this
      ensures name.None? ==> r == []
      ensures name.Some? ==> forall x :: x in r <==> x in reportData && ContainsSubstring(Lower(x.technicianName), Lower(name.value))
    {
      if name.None? then [] else Filter(reportData, ByName(name.value))
    }

    /** findByStatusIgnoreCase */
    function FindByStatus(status: Option<string>): (r: seq<Report>)
      reads this
      ensures status.None? ==> r == []
      ensures status.Some? ==> forall x :: x in r <==> x in reportData && Lower(x.status) == Lower(status.value)
    {
      if status.None? then [] else Filter(reportData, ByStatus(status.value))
    }

    /** findByTechnicianNameContainingIgnoreCaseAndStatusIgnoreCase */
    function FindByTechnicianNameAndStatus(name: Option<string>, status: Option<string>): (r: seq<Report>)
      reads this
      ensures name.None? || status.None? ==> r == []
      ensures name.Some? && status.Some? ==>
                forall x :: x in r <==> x in reportData && ContainsSubstring(Lower(x.technicianName), Lower(name.value)) && Lower(x.status) == Lower(status.value)
    {
      if name.None? || status.None? then []
      else Filter(reportData, ByNameAndStatus(name.value, status.value))
    }

    /** findByRepairDate */
    function FindByRepairDate(date: Day): (r: seq<Report>)
      reads this
      ensures forall x :: x in r <==> x in reportData && x.repairDate == date
    {
      Filter(reportData, OnDate(date))
    }

    /** findByRepairDateBetween: both ends included. */
    function FindByRepairDateBetween(startDate: Day, endDate: Day): (r: seq<Report>)
      reads this
      ensures forall x :: x in r <==> x in reportData && startDate <= x.repairDate <= endDate
    {
      Filter(reportData, Between(startDate, endDate))
    }
  }

  /** The combined query is the status query applied to the name query's
      result. */
  lemma NameAndStatusComposes(s: seq<Report>, term: string, status: string)
    ensures Filter(s, ByNameAndStatus(term, status)) == Filter(Filter(s, ByName(term)), ByStatus(status))
  {
    FilterTwice(s, ByName(term), ByStatus(status));
  }

  /** A range whose two ends are the same day is the single-date query. */
  lemma OneDayRangeIsOneDate(s: seq<Report>, date: Day)
    ensures Filter(s, Between(date, date)) == Filter(s, OnDate(date))
  {
    FilterAgree(s, Between(date, date), OnDate(date));
  }
}
