/** The client-side search and filter of the client list: a search term matched
    against four fields, and two categorical filters whose sentinel is "all". */
module ClientFilter {
  import opened ClientTypes
  import opened Sequences

  /** The sentinel value of both categorical filters. */
  const All: string := "all"

  predicate IsUpper(ch: char)
  {
    'A' <= ch <= 'Z'
  }

  /** `toLowerCase` on one character, ASCII letters only. */
  function LowerChar(ch: char): (r: char)
    ensures !IsUpper(r)
    ensures IsUpper(ch) ==> r != ch
    ensures !IsUpper(ch) ==> r == ch
  {
    if IsUpper(ch) then (ch as int + 32) as char else ch
  }

  /** `toLowerCase` on a string, ASCII letters only. */
  function Lower(s: string): string
  {
    seq(|s|, i requires 0 <= i < |s| => LowerChar(s[i]))
  }

  /** Lower-casing leaves no upper-case letter, changes nothing else, and is idempotent. */
  lemma LowerProperties(s: string)
    ensures forall i :: 0 <= i < |s| ==> !IsUpper(Lower(s)[i])
    ensures (forall i :: 0 <= i < |s| ==> !IsUpper(s[i])) <==> Lower(s) == s
    ensures Lower(Lower(s)) == Lower(s)
  {
    if forall i :: 0 <= i < |s| ==> !IsUpper(s[i]) {
      assert forall i :: 0 <= i < |s| ==> Lower(s)[i] == s[i];
    }
  }

  /** `h.includes(n)`. */
  function Includes(h: string, n: string): bool
  {
    n <= h || (h != [] && Includes(h[1..], n))
  }

  lemma {:induction false} IncludesIsSubstring(h: string, n: string)
    ensures Includes(h, n) <==> IsSubstring(n, h)
  {
    if n <= h {
      assert OccursAt(n, h, 0);
    } else if h == [] {
      forall i: nat ensures !OccursAt(n, h, i) {
      }
    } else {
      IncludesIsSubstring(h[1..], n);
      if IsSubstring(n, h[1..]) {
        var i: nat :| OccursAt(n, h[1..], i);
        assert h[1..][i..i + |n|] == h[i + 1..i + 1 + |n|];
        assert OccursAt(n, h, i + 1);
      }
      if IsSubstring(n, h) {
        var i: nat :| OccursAt(n, h, i);
        assert i != 0;
        assert h[1..][i - 1..i - 1 + |n|] == h[i..i + |n|];
        assert OccursAt(n, h[1..], i - 1);
      }
    }
  }

  /** A string whose first character does not occur in `h` is not included in `h`. */
  lemma {:induction false} FirstCharAbsent(h: string, n: string)
    requires n != [] && n[0] !in h
    ensures !Includes(h, n)
  {
    if h != [] {
      assert forall x :: x in h[1..] ==> x in h;
      FirstCharAbsent(h[1..], n);
    }
  }

  /** A lower-case letter occurs in `Lower(s)` only if it or its upper-case form occurs in `s`. */
  lemma LowerLetterAbsent(s: string, ch: char)
    requires 'a' <= ch <= 'z' && ch !in s && (ch as int - 32) as char !in s
    ensures ch !in Lower(s)
  {
    forall i | 0 <= i < |s| ensures Lower(s)[i] != ch {
      assert s[i] in s;
    }
  }

  /** The search predicate; `term` is the already lower-cased search term. Only
      `full_name` and `email` are lower-cased before the comparison. */
  predicate MatchesSearch(c: Client, term: string)
  {
    || Includes(Lower(c.full_name), term)
    || Includes(c.document_number, term)
    || Includes(c.phone, term)
    || (Truthy(c.email) && Includes(Lower(c.email.value), term))
  }

  function SearchFilter(term: string): Client -> bool
  {
    (c: Client) => MatchesSearch(c, term)
  }

  function StatusIs(statusFilter: string): Client -> bool
  {
    (c: Client) => StatusName(c.status) == statusFilter
  }

  function ServiceIs(serviceFilter: string): Client -> bool
  {
    (c: Client) => c.service_type == serviceFilter
  }

  /** The visible subset of `clients`: the search filter when the term is
      non-empty, then the status filter and the service filter unless "all". */
  function FilterClients(clients: seq<Client>, searchTerm: string, statusFilter: string, serviceFilter: string): seq<Client>
  {
    var bySearch := if searchTerm != "" then Filter(SearchFilter(Lower(searchTerm)), clients) else clients;
    var byStatus := if statusFilter != All then Filter(StatusIs(statusFilter), bySearch) else bySearch;
    if serviceFilter != All then Filter(ServiceIs(serviceFilter), byStatus) else byStatus
  }

  /** Reference statement of which records the list shows: the lower-cased term
      is a substring of the lower-cased name, the raw document number, the raw
      phone or the lower-cased non-null e-mail (or the term is empty), and each
      categorical filter is "all" or equal to the record's value. */
  ghost predicate Kept(c: Client, searchTerm: string, statusFilter: string, serviceFilter: string)
  {
    && (searchTerm == "" ||
        var t := Lower(searchTerm);
        || IsSubstring(t, Lower(c.full_name))
        || IsSubstring(t, c.document_number)
        || IsSubstring(t, c.phone)
        || (c.email.Some? && IsSubstring(t, Lower(c.email.value))))
    && (statusFilter == All || StatusName(c.status) == statusFilter)
    && (serviceFilter == All || c.service_type == serviceFilter)
  }

  ghost function KeptBy(searchTerm: string, statusFilter: string, serviceFilter: string): Client -> bool
  {
    (c: Client) => Kept(c, searchTerm, statusFilter, serviceFilter)
  }

  function SearchStage(searchTerm: string): Client -> bool
  {
    (c: Client) => searchTerm == "" || MatchesSearch(c, Lower(searchTerm))
  }

  function StatusStage(statusFilter: string): Client -> bool
  {
    (c: Client) => statusFilter == All || StatusName(c.status) == statusFilter
  }

  function ServiceStage(serviceFilter: string): Client -> bool
  {
    (c: Client) => serviceFilter == All || c.service_type == serviceFilter
  }

  /** The code's search predicate agrees with the substring statement. */
  lemma MatchesSearchIsSubstring(c: Client, term: string)
    ensures MatchesSearch(c, term) <==>
      || IsSubstring(term, Lower(c.full_name))
      || IsSubstring(term, c.document_number)
      || IsSubstring(term, c.phone)
      || (c.email.Some? && IsSubstring(term, Lower(c.email.value)))
  {
    IncludesIsSubstring(Lower(c.full_name), term);
    IncludesIsSubstring(c.document_number, term);
    IncludesIsSubstring(c.phone, term);
    if c.email.Some? {
      IncludesIsSubstring(Lower(c.email.value), term);
      if c.email.value == "" && term != "" {
        forall i: nat ensures !OccursAt(term, Lower(c.email.value), i) {
        }
      }
    }
  }

  /** A stage that is skipped behaves as a filter that accepts everything. */
  lemma StageAsFilter(skip: bool, p: Client -> bool, stage: Client -> bool, s: seq<Client>)
    requires forall c :: stage(c) == (skip || p(c))
    ensures (if !skip then Filter(p, s) else s) == Filter(stage, s)
  {
    if skip {
      FilterKeepsAll(stage, s);
    } else {
      FilterCongruent(p, stage, s);
    }
  }

  /** The three staged filters select exactly the records `Kept` describes. */
  lemma FilterClientsSelectsKept(clients: seq<Client>, searchTerm: string, statusFilter: string, serviceFilter: string)
    ensures FilterClients(clients, searchTerm, statusFilter, serviceFilter)
         == Filter(KeptBy(searchTerm, statusFilter, serviceFilter), clients)
  {
    var search, status, service := SearchStage(searchTerm), StatusStage(statusFilter), ServiceStage(serviceFilter);
    var bySearch := if searchTerm != "" then Filter(SearchFilter(Lower(searchTerm)), clients) else clients;
    var byStatus := if statusFilter != All then Filter(StatusIs(statusFilter), bySearch) else bySearch;
    StageAsFilter(searchTerm == "", SearchFilter(Lower(searchTerm)), search, clients);
    StageAsFilter(statusFilter == All, StatusIs(statusFilter), status, bySearch);
    StageAsFilter(serviceFilter == All, ServiceIs(serviceFilter), service, byStatus);
    FilterFusion(search, status, clients);
    FilterFusion(And(search, status), service, clients);
    forall c | c in clients
      ensures And(And(search, status), service)(c) == KeptBy(searchTerm, statusFilter, serviceFilter)(c)
    {
      if searchTerm != "" {
        MatchesSearchIsSubstring(c, Lower(searchTerm));
      }
    }
    FilterCongruent(And(And(search, status), service), KeptBy(searchTerm, statusFilter, serviceFilter), clients);
  }

  /** A record is shown iff it is in the list and `Kept` holds of it. */
  lemma FilterClientsMembership(clients: seq<Client>, searchTerm: string, statusFilter: string, serviceFilter: string, c: Client)
    ensures c in FilterClients(clients, searchTerm, statusFilter, serviceFilter)
        <==> c in clients && Kept(c, searchTerm, statusFilter, serviceFilter)
  {
    FilterClientsSelectsKept(clients, searchTerm, statusFilter, serviceFilter);
  }

  /** Each shown record matches the categorical filters that are not "all". */
  lemma FilterClientsHonoursCategories(clients: seq<Client>, searchTerm: string, statusFilter: string, serviceFilter: string)
    ensures forall c :: c in FilterClients(clients, searchTerm, statusFilter, serviceFilter) ==>
      && (statusFilter != All ==> StatusName(c.status) == statusFilter)
      && (serviceFilter != All ==> c.service_type == serviceFilter)
  {
    FilterClientsSelectsKept(clients, searchTerm, statusFilter, serviceFilter);
  }

  /** A record is shown as many times as it occurs in the list if it is kept, and never otherwise. */
  lemma FilterClientsMultiplicity(clients: seq<Client>, searchTerm: string, statusFilter: string, serviceFilter: string, c: Client)
    ensures multiset(FilterClients(clients, searchTerm, statusFilter, serviceFilter))[c]
         == if Kept(c, searchTerm, statusFilter, serviceFilter) then multiset(clients)[c] else 0
  {
    FilterClientsSelectsKept(clients, searchTerm, statusFilter, serviceFilter);
    FilterMultiplicity(KeptBy(searchTerm, statusFilter, serviceFilter), clients, c);
  }

  /** The visible list is a subsequence of the loaded list: original order, no duplicates, nothing invented. */
  lemma FilterClientsIsSubsequence(clients: seq<Client>, searchTerm: string, statusFilter: string, serviceFilter: string)
    ensures IsSubsequence(FilterClients(clients, searchTerm, statusFilter, serviceFilter), clients)
  {
    FilterClientsSelectsKept(clients, searchTerm, statusFilter, serviceFilter);
    FilterIsSubsequence(KeptBy(searchTerm, statusFilter, serviceFilter), clients);
  }

  /** Filtering the visible list again with the same criteria gives it back unchanged. */
  lemma FilterClientsIdempotent(clients: seq<Client>, searchTerm: string, statusFilter: string, serviceFilter: string)
    ensures var shown := FilterClients(clients, searchTerm, statusFilter, serviceFilter);
      FilterClients(shown, searchTerm, statusFilter, serviceFilter) == shown
  {
    var shown := FilterClients(clients, searchTerm, statusFilter, serviceFilter);
    FilterClientsSelectsKept(clients, searchTerm, statusFilter, serviceFilter);
    FilterClientsSelectsKept(shown, searchTerm, statusFilter, serviceFilter);
    FilterIdempotent(KeptBy(searchTerm, statusFilter, serviceFilter), clients);
  }

  /** With an empty term and both filters "all", the whole list is shown in its order. */
  lemma FilterClientsNoCriteria(clients: seq<Client>)
    ensures FilterClients(clients, "", All, All) == clients
  {
  }

  /** `document_number` and `phone` are compared with the lower-cased term
      without being lower-cased themselves, so they only ever match on a stretch
      free of upper-case letters: an upper-case letter of the term never meets
      the same letter in these fields. */
  lemma RawFieldMatchHasNoUppercase(field: string, searchTerm: string, i: nat)
    requires OccursAt(Lower(searchTerm), field, i)
    ensures forall k :: i <= k < i + |searchTerm| ==> !IsUpper(field[k])
    ensures forall j :: 0 <= j < |searchTerm| && IsUpper(searchTerm[j]) ==> field[i + j] != searchTerm[j]
  {
    var t := Lower(searchTerm);
    assert forall k :: i <= k < i + |t| ==> field[k] == t[k - i];
  }

  /** A client with the given name, status, service, document number and e-mail; every other field is fixed. */
  function SampleClient(id: string, name: string, status: Status, service: string, document: string, email: Option<string>): Client
  {
    Client(id, name, email, "999000111", "DNI", document, None, service, None, status,
           "2024-01-01", None, "", None, "2024-01-01", "2024-01-01")
  }

  function AnaRuiz(): Client
  {
    SampleClient("1", "Ana Ruiz", Active, "Móvil", "10203040", None)
  }

  function BetoLopez(): Client
  {
    SampleClient("2", "Beto Lopez", Suspended, "TV Cable", "50607080", None)
  }

  /** "ana" matches Ana Ruiz through her name. */
  lemma SearchAnaFindsAna()
    ensures MatchesSearch(AnaRuiz(), Lower("ana"))
  {
    var t := Lower("ana");
    assert t[0] == 'a' && t[1] == 'n' && t[2] == 'a';
    assert t <= Lower(AnaRuiz().full_name);
  }

  /** "ana" matches no field of Beto Lopez. */
  lemma SearchAnaMissesBeto()
    ensures !MatchesSearch(BetoLopez(), Lower("ana"))
  {
    var beto, t := BetoLopez(), Lower("ana");
    assert t[0] == 'a';
    LowerLetterAbsent(beto.full_name, 'a');
    FirstCharAbsent(Lower(beto.full_name), t);
    FirstCharAbsent(beto.document_number, t);
    FirstCharAbsent(beto.phone, t);
  }

  /** Searching "ana" finds Ana Ruiz by name and not Beto Lopez. */
  lemma ScenarioSearchByName()
    ensures FilterClients([AnaRuiz(), BetoLopez()], "ana", All, All) == [AnaRuiz()]
  {
    var ana, beto := AnaRuiz(), BetoLopez();
    var p := SearchFilter(Lower("ana"));
    SearchAnaFindsAna();
    SearchAnaMissesBeto();
    FilterPair(p, ana, beto);
    assert Filter(p, [ana, beto]) == [ana];
    assert FilterClients([ana, beto], "ana", All, All) == Filter(p, [ana, beto]);
  }

  /** Filtering by status "Suspended" shows Beto Lopez only. */
  lemma ScenarioStatusFilter()
    ensures FilterClients([AnaRuiz(), BetoLopez()], "", "Suspended", All) == [BetoLopez()]
  {
    FilterPair(StatusIs("Suspended"), AnaRuiz(), BetoLopez());
  }

  /** Filtering by service "Móvil" shows Ana Ruiz only. */
  lemma ScenarioServiceFilter()
    ensures FilterClients([AnaRuiz(), BetoLopez()], "", All, "Móvil") == [AnaRuiz()]
  {
    FilterPair(ServiceIs("Móvil"), AnaRuiz(), BetoLopez());
  }

  /** A client whose document number holds upper-case letters is not found by
      typing that document number, while the same text in the name is found. */
  lemma DocumentNumberCaseQuirk()
    ensures var byDocument := SampleClient("1", "Luis Perez", Active, "TV Cable", "AB12", None);
      var byName := SampleClient("2", "AB12", Active, "TV Cable", "10203040", None);
      && FilterClients([byDocument], "AB12", All, All) == []
      && FilterClients([byName], "AB12", All, All) == [byName]
  {
    var byDocument := SampleClient("1", "Luis Perez", Active, "TV Cable", "AB12", None);
    var byName := SampleClient("2", "AB12", Active, "TV Cable", "10203040", None);
    var term := Lower("AB12");
    assert term[0] == 'a';
    assert "AB12"[0] == 'A';
    assert term <= Lower(byName.full_name);
    LowerLetterAbsent(byDocument.full_name, 'a');
    FirstCharAbsent(Lower(byDocument.full_name), term);
    FirstCharAbsent(byDocument.document_number, term);
    FirstCharAbsent(byDocument.phone, term);
    assert !MatchesSearch(byDocument, term);
    assert Filter(SearchFilter(term), [byDocument]) == [];
  }
}
