/** The emergency care finder (src/components/EmergencyDoctorFinder.tsx):
    a fixed directory of doctors, a case-insensitive search over name,
    specialty and hospital, and the availability badge. */
module DoctorFinder {
  import opened Text
  import opened Badge

  datatype Availability = Available | Busy | EmergencyOnly

  datatype Doctor = Doctor(
    id: string,
    name: string,
    specialty: string,
    hospital: string,
    distance: real,
    rating: real,
    availability: Availability,
    phone: string,
    estimatedTime: string)

  const Directory: seq<Doctor> := [
    Doctor("1", "Dr. Sarah Johnson", "Cardiology", "City Medical Center", 0.8, 4.9, Available, "+1 (555) 123-4567", "5 min"),
    Doctor("2", "Dr. Michael Chen", "Emergency Medicine", "General Hospital", 1.2, 4.8, Available, "+1 (555) 987-6543", "8 min"),
    Doctor("3", "Dr. Emily Rodriguez", "Internal Medicine", "Regional Medical", 2.1, 4.7, EmergencyOnly, "+1 (555) 456-7890", "12 min")
  ]

  /** getAvailabilityColor. */
  function AvailabilityColor(a: Availability): (t: Tone)
    ensures t == Green <==> a == Available
    ensures t == Yellow <==> a == Busy
    ensures t == Red <==> a == EmergencyOnly
  {
    match a
    case Available => Green
    case Busy => Yellow
    case EmergencyOnly => Red
  }

  /** getAvailabilityText. */
  function AvailabilityText(a: Availability): (s: string)
    ensures a == Available ==> s == "Available Now"
    ensures a == Busy ==> s == "Busy"
    ensures a == EmergencyOnly ==> s == "Emergency Only"
  {
    match a
    case Available => "Available Now"
    case Busy => "Busy"
    case EmergencyOnly => "Emergency Only"
  }

  /** Distinct availabilities get distinct badge texts and colours. */
  lemma AvailabilityBadgesDistinct(a: Availability, b: Availability)
    requires a != b
    ensures AvailabilityText(a) != AvailabilityText(b)
    ensures AvailabilityColor(a) != AvailabilityColor(b)
  {
  }

  /** The search rule: the lower-cased term occurs in the lower-cased name,
      specialty or hospital. */
  predicate Matches(d: Doctor, term: string): (m: bool)
    ensures term == "" ==> m
    ensures Contains(d.name, term) || Contains(d.specialty, term) || Contains(d.hospital, term) ==> m
  {
    ContainsEmpty(Lower(d.name));
    assert Contains(d.name, term) || Contains(d.specialty, term) || Contains(d.hospital, term) ==>
      Contains(Lower(d.name), Lower(term)) || Contains(Lower(d.specialty), Lower(term))
      || Contains(Lower(d.hospital), Lower(term)) by {
      if Contains(d.name, term) { ContainsLower(d.name, term); }
      if Contains(d.specialty, term) { ContainsLower(d.specialty, term); }
      if Contains(d.hospital, term) { ContainsLower(d.hospital, term); }
    }
    Contains(Lower(d.name), Lower(term))
    || Contains(Lower(d.specialty), Lower(term))
    || Contains(Lower(d.hospital), Lower(term))
  }

  /** filteredDoctors: the matching doctors, in directory order. */
  function FilterDoctors(ds: seq<Doctor>, term: string): (r: seq<Doctor>)
    ensures |r| <= |ds|
    ensures forall d :: d in r ==> d in ds && Matches(d, term)
  {
    if |ds| == 0 then []
    else if Matches(ds[0], term) then [ds[0]] + FilterDoctors(ds[1..], term)
    else FilterDoctors(ds[1..], term)
  }

  /** A doctor of the list is kept exactly when it matches. */
  lemma {:induction false} FilterKeepsMatches(ds: seq<Doctor>, term: string, d: Doctor)
    requires d in ds
    ensures d in FilterDoctors(ds, term) <==> Matches(d, term)
  {
    if ds[0] != d {
      FilterKeepsMatches(ds[1..], term, d);
    }
  }

  /** `sub` is `s` with some elements dropped, order kept. */
  predicate IsSubsequence<T(==)>(sub: seq<T>, s: seq<T>)
    decreases |s|
  {
    if |sub| == 0 then true
    else if |s| == 0 then false
    else (sub[0] == s[0] && IsSubsequence(sub[1..], s[1..])) || IsSubsequence(sub, s[1..])
  }

  /** The result keeps directory order. */
  lemma {:induction false} FilterIsSubsequence(ds: seq<Doctor>, term: string)
    ensures IsSubsequence(FilterDoctors(ds, term), ds)
  {
    if |ds| > 0 {
      FilterIsSubsequence(ds[1..], term);
      if Matches(ds[0], term) {
        assert FilterDoctors(ds, term)[1..] == FilterDoctors(ds[1..], term);
      }
    }
  }

  /** The empty term, the finder's initial state, keeps every doctor. */
  lemma {:induction false} EmptyTermKeepsAll(ds: seq<Doctor>)
    ensures FilterDoctors(ds, "") == ds
  {
    if |ds| > 0 {
      ContainsEmpty(Lower(ds[0].name));
      assert Lower("") == "";
      EmptyTermKeepsAll(ds[1..]);
    }
  }

  /** Only the lower-cased term matters: terms differing in letter case
      find the same doctors. */
  lemma {:induction false} FilterIgnoresCase(ds: seq<Doctor>, s: string, t: string)
    requires Lower(s) == Lower(t)
    ensures FilterDoctors(ds, s) == FilterDoctors(ds, t)
  {
    if |ds| > 0 {
      FilterIgnoresCase(ds[1..], s, t);
    }
  }

  /** Typing more narrows the search: if the term t contains the term s,
      every doctor found for t is also found for s. */
  lemma FilterRefines(ds: seq<Doctor>, s: string, t: string)
    requires Contains(t, s)
    ensures forall d :: d in FilterDoctors(ds, t) ==> d in FilterDoctors(ds, s)
  {
    ContainsLower(t, s);
    forall d | d in FilterDoctors(ds, t) ensures d in FilterDoctors(ds, s) {
      if Contains(Lower(d.name), Lower(t)) {
        ContainsTransitive(Lower(d.name), Lower(t), Lower(s));
      } else if Contains(Lower(d.specialty), Lower(t)) {
        ContainsTransitive(Lower(d.specialty), Lower(t), Lower(s));
      } else {
        ContainsTransitive(Lower(d.hospital), Lower(t), Lower(s));
      }
      FilterKeepsMatches(ds, s, d);
    }
  }

  /** The initial finder lists the whole directory, three doctors. */
  lemma InitialListing()
    ensures FilterDoctors(Directory, "") == Directory
    ensures |FilterDoctors(Directory, "")| == 3
  {
    EmptyTermKeepsAll(Directory);
  }
}
