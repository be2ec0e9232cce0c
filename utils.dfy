/** The enumerations of field names (src/v1/utils.rs): for each field enum,
    the sequence a caller iterates to ask for every field, built by chaining
    constant arrays and mapping the `From` conversions over them. */
module Utils {
  import opened Core
  import opened Parameter

  /** No value occurs twice. */
  predicate Distinct<T(==)>(s: seq<T>)
  {
    forall i, j :: 0 <= i < j < |s| ==> s[i] != s[j]
  }

  /** `Iterator::map`. */
  function Map<A, B>(s: seq<A>, f: A -> B): (r: seq<B>)
    ensures |r| == |s| && forall i :: 0 <= i < |s| ==> r[i] == f(s[i])
  {
    seq(|s|, i requires 0 <= i < |s| => f(s[i]))
  }

  /** What `Map` yields: exactly the images of the input's elements. */
  lemma InMap<A, B>(s: seq<A>, f: A -> B, y: B)
    ensures y in Map(s, f) <==> exists x :: x in s && f(x) == y
  {
    if y in Map(s, f) {
      var k :| 0 <= k < |s| && Map(s, f)[k] == y;
      assert s[k] in s;
    }
    if exists x :: x in s && f(x) == y {
      var x :| x in s && f(x) == y;
      var k :| 0 <= k < |s| && s[k] == x;
      assert Map(s, f)[k] == y;
    }
  }

  /** Chaining two duplicate-free sequences with no value in common gives a
      duplicate-free sequence. */
  lemma DistinctAppend<T>(a: seq<T>, b: seq<T>)
    requires Distinct(a) && Distinct(b)
    requires forall x :: x in a ==> x !in b
    ensures Distinct(a + b)
  {
    forall i, j | 0 <= i < j < |a + b|
      ensures (a + b)[i] != (a + b)[j]
    {
      if i < |a| && |a| <= j {
        assert (a + b)[i] in a && (a + b)[j] in b;
      }
    }
  }

  /** Mapping a one-to-one conversion over a duplicate-free sequence keeps it
      duplicate-free. */
  lemma DistinctMap<A, B>(s: seq<A>, f: A -> B)
    requires Distinct(s)
    requires forall x, y :: f(x) == f(y) ==> x == y
    ensures Distinct(Map(s, f))
  {
  }

  const PAPER_INFO_FIELDS: seq<PaperInfoField> :=
    [PaperInfoField.PaperId, PaperInfoField.Url, PaperInfoField.Title,
     PaperInfoField.Venue, PaperInfoField.Year, PaperInfoField.Authors]

  const AUTHOR_INFO_FIELDS: seq<AuthorInfoField> := [AuthorInfoField.AuthorId, AuthorInfoField.Name]

  /** The base paper fields other than `Info`. */
  const BASE_PAPER_FIELDS: seq<BasePaperField> :=
    [BasePaperField.ExternalIds, BasePaperField.Abstract, BasePaperField.ReferenceCount,
     BasePaperField.CitationCount, BasePaperField.InfluentialCitationCount,
     BasePaperField.IsOpenAccess, BasePaperField.FieldsOfStudy]

  /** The author fields other than `Info`. */
  const AUTHOR_FIELDS: seq<AuthorField> :=
    [AuthorField.ExternalIds, AuthorField.Url, AuthorField.Aliases, AuthorField.Affiliations,
     AuthorField.Homepage, AuthorField.PaperCount, AuthorField.CitationCount, AuthorField.HIndex]

  /** The paper fields other than `Base`. */
  const PAPER_FIELDS: seq<PaperField> := [PaperField.Contexts, PaperField.Intents, PaperField.IsInfluential]

  /** The full paper fields that wrap nothing. */
  const FULL_PAPER_FIELDS: seq<FullPaperField> := [FullPaperField.Embedding, FullPaperField.Tldr]

  function AllAuthorInfoFields(): seq<AuthorInfoField>
  {
    AUTHOR_INFO_FIELDS
  }

  function AllAuthorFields(): seq<AuthorField>
  {
    Map(AllAuthorInfoFields(), AuthorField.FromInfo) + AUTHOR_FIELDS
  }

  function AllPaperInfoFields(): seq<PaperInfoField>
  {
    PAPER_INFO_FIELDS
  }

  function AllBasePaperFields(): seq<BasePaperField>
  {
    BASE_PAPER_FIELDS + Map(AllPaperInfoFields(), BasePaperField.FromInfo)
  }

  function AllPaperFields(): seq<PaperField>
  {
    PAPER_FIELDS + Map(AllBasePaperFields(), PaperField.FromBase)
  }

  function AllAuthorWithPapersFields(): seq<AuthorWithPapersField>
  {
    Map(AllAuthorFields(), AuthorWithPapersField.FromAuthor)
    + Map(AllBasePaperFields(), AuthorWithPapersField.FromBase)
  }

  function AllPaperWithLinksFields(): seq<PaperWithLinksField>
  {
    Map(AllBasePaperFields(), PaperWithLinksField.FromBase)
    + Map(AllAuthorInfoFields(), PaperWithLinksField.FromAuthorInfo)
    + Map(AllPaperInfoFields(), PaperWithLinksField.ReferencesFrom)
    + Map(AllPaperInfoFields(), PaperWithLinksField.CitationsFrom)
  }

  function AllFullPaperFields(): seq<FullPaperField>
  {
    FULL_PAPER_FIELDS
    + Map(AllAuthorFields(), FullPaperField.FromAuthor)
    + Map(AllBasePaperFields(), FullPaperField.FromBase)
    + Map(AllPaperInfoFields(), FullPaperField.CitationsFrom)
    + Map(AllPaperInfoFields(), FullPaperField.ReferencesFrom)
  }

  function PaperFieldsWith(fields: seq<BasePaperField>): seq<PaperField>
  {
    PAPER_FIELDS + Map(fields, PaperField.FromBase)
  }

  function AuthorWithPapersFieldsWith(fields: seq<BasePaperField>): seq<AuthorWithPapersField>
  {
    Map(AllAuthorFields(), AuthorWithPapersField.FromAuthor) + Map(fields, AuthorWithPapersField.FromBase)
  }

  /** `all_author_info_fields`: `AuthorId` then `Name`. */
  lemma AllAuthorInfoFieldsExactlyOnce()
    ensures AllAuthorInfoFields() == [AuthorInfoField.AuthorId, AuthorInfoField.Name]
    ensures Distinct(AllAuthorInfoFields()) && forall f :: f in AllAuthorInfoFields()
  {
    forall f: AuthorInfoField
      ensures f in AllAuthorInfoFields()
    {
      match f
      case AuthorId => assert AllAuthorInfoFields()[0] == f;
      case Name => assert AllAuthorInfoFields()[1] == f;
    }
  }

  /** `all_paper_info_fields`: each of the six paper info fields once. */
  lemma AllPaperInfoFieldsExactlyOnce()
    ensures |AllPaperInfoFields()| == 6 && Distinct(AllPaperInfoFields())
    ensures forall f :: f in AllPaperInfoFields()
  {
    forall f: PaperInfoField
      ensures f in AllPaperInfoFields()
    {
      match f
      case PaperId => assert AllPaperInfoFields()[0] == f;
      case Url => assert AllPaperInfoFields()[1] == f;
      case Title => assert AllPaperInfoFields()[2] == f;
      case Venue => assert AllPaperInfoFields()[3] == f;
      case Year => assert AllPaperInfoFields()[4] == f;
      case Authors => assert AllPaperInfoFields()[5] == f;
    }
  }

  /** Every author field is in `all_author_fields`, which has ten entries. */
  lemma AllAuthorFieldsCover()
    ensures |AllAuthorFields()| == 10 && forall f :: f in AllAuthorFields()
  {
    AllAuthorInfoFieldsExactlyOnce();
    forall f: AuthorField
      ensures f in AllAuthorFields()
    {
      var r := AllAuthorFields();
      match f
      case Info(i) =>
        InMap(AllAuthorInfoFields(), AuthorField.FromInfo, f);
        assert i in AllAuthorInfoFields() && AuthorField.FromInfo(i) == f;
      case ExternalIds => assert r[2] == f;
      case Url => assert r[3] == f;
      case Aliases => assert r[4] == f;
      case Affiliations => assert r[5] == f;
      case Homepage => assert r[6] == f;
      case PaperCount => assert r[7] == f;
      case CitationCount => assert r[8] == f;
      case HIndex => assert r[9] == f;
    }
  }

  /** `all_author_fields`: each of the ten author fields once, the two
      `Info` fields first. */
  lemma AllAuthorFieldsExactlyOnce()
    ensures |AllAuthorFields()| == 10 && Distinct(AllAuthorFields())
    ensures forall f :: f in AllAuthorFields()
    ensures forall i :: 0 <= i < 10 ==> (AllAuthorFields()[i].Info? <==> i < 2)
  {
    var infos := Map(AllAuthorInfoFields(), AuthorField.FromInfo);
    AllAuthorInfoFieldsExactlyOnce();
    DistinctMap(AllAuthorInfoFields(), AuthorField.FromInfo);
    assert Distinct(AUTHOR_FIELDS);
    DistinctAppend(infos, AUTHOR_FIELDS);
    AllAuthorFieldsCover();
  }

  /** `all_base_paper_fields`: each of the thirteen base paper fields once,
      the seven non-`Info` fields first and the six `Info` fields after. */
  lemma AllBasePaperFieldsExactlyOnce()
    ensures |AllBasePaperFields()| == 13 && Distinct(AllBasePaperFields())
    ensures forall f :: f in AllBasePaperFields()
    ensures forall i :: 0 <= i < 13 ==> (AllBasePaperFields()[i].Info? <==> 7 <= i)
  {
    var infos := Map(AllPaperInfoFields(), BasePaperField.FromInfo);
    AllPaperInfoFieldsExactlyOnce();
    DistinctMap(AllPaperInfoFields(), BasePaperField.FromInfo);
    assert Distinct(BASE_PAPER_FIELDS);
    DistinctAppend(BASE_PAPER_FIELDS, infos);
    forall f: BasePaperField
      ensures f in AllBasePaperFields()
    {
      var r := AllBasePaperFields();
      match f
      case Info(i) =>
        InMap(AllPaperInfoFields(), BasePaperField.FromInfo, f);
        assert i in AllPaperInfoFields() && BasePaperField.FromInfo(i) == f;
      case ExternalIds => assert r[0] == f;
      case Abstract => assert r[1] == f;
      case ReferenceCount => assert r[2] == f;
      case CitationCount => assert r[3] == f;
      case InfluentialCitationCount => assert r[4] == f;
      case IsOpenAccess => assert r[5] == f;
      case FieldsOfStudy => assert r[6] == f;
    }
  }

  /** `paper_fields_with`: the three non-`Base` paper fields, then `Base(x)`
      for each given `x` in order; a `Base` field is in the result exactly
      when it wraps a given field. */
  lemma PaperFieldsWithContents(fields: seq<BasePaperField>)
    ensures var r := PaperFieldsWith(fields);
      && |r| == 3 + |fields| && r[..3] == [PaperField.Contexts, PaperField.Intents, PaperField.IsInfluential]
      && (forall i :: 0 <= i < |fields| ==> r[3 + i] == PaperField.Base(fields[i]))
      && (forall p :: p in r <==> !p.Base? || p.base in fields)
  {
    var r := PaperFieldsWith(fields);
    assert r[..3] == PAPER_FIELDS;
    forall p
      ensures p in r <==> !p.Base? || p.base in fields
    {
      InMap(fields, PaperField.FromBase, p);
      if !p.Base? {
        assert p in PAPER_FIELDS;
      }
    }
  }

  /** `all_paper_fields`: each of the sixteen paper fields once; it is
      `paper_fields_with` over all base paper fields. */
  lemma AllPaperFieldsExactlyOnce()
    ensures |AllPaperFields()| == 16 && Distinct(AllPaperFields())
    ensures forall f :: f in AllPaperFields()
    ensures AllPaperFields() == PaperFieldsWith(AllBasePaperFields())
  {
    AllBasePaperFieldsExactlyOnce();
    DistinctMap(AllBasePaperFields(), PaperField.FromBase);
    assert Distinct(PAPER_FIELDS);
    DistinctAppend(PAPER_FIELDS, Map(AllBasePaperFields(), PaperField.FromBase));
    PaperFieldsWithContents(AllBasePaperFields());
  }

  /** `author_with_papers_fields_with`: every author field as `Author(_)`,
      then `Papers(Some(x))` for each given `x` in order; `Papers(None)` is
      never in it. */
  lemma AuthorWithPapersFieldsWithContents(fields: seq<BasePaperField>)
    ensures var r := AuthorWithPapersFieldsWith(fields);
      && |r| == 10 + |fields|
      && (forall i :: 0 <= i < 10 ==> r[i] == AuthorWithPapersField.Author(AllAuthorFields()[i]))
      && (forall i :: 0 <= i < |fields| ==> r[10 + i] == AuthorWithPapersField.Papers(Some(fields[i])))
      && (forall p :: p in r <==> p.Author? || (p.papers.Some? && p.papers.value in fields))
  {
    AllAuthorFieldsCover();
    var authors := AllAuthorFields();
    var r := AuthorWithPapersFieldsWith(fields);
    assert forall k :: 0 <= k < |r| ==> r[k].Papers? ==> k >= 10 && r[k] == AuthorWithPapersField.Papers(Some(fields[k - 10]));
    forall p
      ensures p in r <==> p.Author? || (p.papers.Some? && p.papers.value in fields)
    {
      match p
      case Author(a) =>
        assert a in authors;
        var k :| 0 <= k < |authors| && authors[k] == a;
        assert r[k] == p;
      case Papers(opt) =>
        if opt.Some? && opt.value in fields {
          var k :| 0 <= k < |fields| && fields[k] == opt.value;
          assert r[10 + k] == p;
        }
    }
  }

  /** `all_author_with_papers_fields`: 23 distinct fields, every one but
      `Papers(None)`, although its documentation promises all of them. */
  lemma AllAuthorWithPapersFieldsMissesBarePapers()
    ensures |AllAuthorWithPapersFields()| == 23 && Distinct(AllAuthorWithPapersFields())
    ensures forall f :: f in AllAuthorWithPapersFields() <==> f != AuthorWithPapersField.Papers(None)
    ensures AllAuthorWithPapersFields() == AuthorWithPapersFieldsWith(AllBasePaperFields())
  {
    AllAuthorFieldsExactlyOnce();
    AllBasePaperFieldsExactlyOnce();
    var authors := Map(AllAuthorFields(), AuthorWithPapersField.FromAuthor);
    var papers := Map(AllBasePaperFields(), AuthorWithPapersField.FromBase);
    DistinctMap(AllAuthorFields(), AuthorWithPapersField.FromAuthor);
    DistinctMap(AllBasePaperFields(), AuthorWithPapersField.FromBase);
    DistinctAppend(authors, papers);
    AuthorWithPapersFieldsWithContents(AllBasePaperFields());
  }

  /** `all_paper_with_links_fields`: 27 distinct fields, every one but the
      three bare link fields `Authors(None)`, `Citations(None)` and
      `References(None)`. */
  lemma AllPaperWithLinksFieldsMissesBareLinks()
    ensures |AllPaperWithLinksFields()| == 27 && Distinct(AllPaperWithLinksFields())
    ensures forall f :: f in AllPaperWithLinksFields() <==>
      f != PaperWithLinksField.Authors(None) &&
      f != PaperWithLinksField.Citations(None) &&
      f != PaperWithLinksField.References(None)
  {
    AllBasePaperFieldsExactlyOnce();
    AllAuthorInfoFieldsExactlyOnce();
    AllPaperInfoFieldsExactlyOnce();
    var bases := Map(AllBasePaperFields(), PaperWithLinksField.FromBase);
    var authors := Map(AllAuthorInfoFields(), PaperWithLinksField.FromAuthorInfo);
    var references := Map(AllPaperInfoFields(), PaperWithLinksField.ReferencesFrom);
    var citations := Map(AllPaperInfoFields(), PaperWithLinksField.CitationsFrom);
    DistinctMap(AllBasePaperFields(), PaperWithLinksField.FromBase);
    DistinctMap(AllAuthorInfoFields(), PaperWithLinksField.FromAuthorInfo);
    DistinctMap(AllPaperInfoFields(), PaperWithLinksField.ReferencesFrom);
    DistinctMap(AllPaperInfoFields(), PaperWithLinksField.CitationsFrom);
    DistinctAppend(bases, authors);
    DistinctAppend(bases + authors, references);
    DistinctAppend(bases + authors + references, citations);
    forall f
      ensures f in AllPaperWithLinksFields() <==>
        f != PaperWithLinksField.Authors(None) &&
        f != PaperWithLinksField.Citations(None) &&
        f != PaperWithLinksField.References(None)
    {
      InMap(AllBasePaperFields(), PaperWithLinksField.FromBase, f);
      InMap(AllAuthorInfoFields(), PaperWithLinksField.FromAuthorInfo, f);
      InMap(AllPaperInfoFields(), PaperWithLinksField.ReferencesFrom, f);
      InMap(AllPaperInfoFields(), PaperWithLinksField.CitationsFrom, f);
      match f
      case Base(b) => assert b in AllBasePaperFields();
      case Authors(Some(a)) => assert a in AllAuthorInfoFields();
      case Citations(Some(a)) => assert a in AllPaperInfoFields();
      case References(Some(a)) => assert a in AllPaperInfoFields();
      case _ =>
    }
  }

  /** `all_full_paper_fields`: 37 distinct fields (2 + 10 + 13 + 6 + 6),
      every one but the three bare link fields `Authors(None)`,
      `Citations(None)` and `References(None)`. */
  lemma AllFullPaperFieldsMissesBareLinks()
    ensures |AllFullPaperFields()| == 37 && Distinct(AllFullPaperFields())
    ensures forall f :: f in AllFullPaperFields() <==>
      f != FullPaperField.Authors(None) &&
      f != FullPaperField.Citations(None) &&
      f != FullPaperField.References(None)
  {
    AllAuthorFieldsExactlyOnce();
    AllBasePaperFieldsExactlyOnce();
    AllPaperInfoFieldsExactlyOnce();
    var authors := Map(AllAuthorFields(), FullPaperField.FromAuthor);
    var bases := Map(AllBasePaperFields(), FullPaperField.FromBase);
    var citations := Map(AllPaperInfoFields(), FullPaperField.CitationsFrom);
    var references := Map(AllPaperInfoFields(), FullPaperField.ReferencesFrom);
    assert Distinct(FULL_PAPER_FIELDS);
    DistinctMap(AllAuthorFields(), FullPaperField.FromAuthor);
    DistinctMap(AllBasePaperFields(), FullPaperField.FromBase);
    DistinctMap(AllPaperInfoFields(), FullPaperField.CitationsFrom);
    DistinctMap(AllPaperInfoFields(), FullPaperField.ReferencesFrom);
    DistinctAppend(FULL_PAPER_FIELDS, authors);
    DistinctAppend(FULL_PAPER_FIELDS + authors, bases);
    DistinctAppend(FULL_PAPER_FIELDS + authors + bases, citations);
    DistinctAppend(FULL_PAPER_FIELDS + authors + bases + citations, references);
    forall f
      ensures f in AllFullPaperFields() <==>
        f != FullPaperField.Authors(None) &&
        f != FullPaperField.Citations(None) &&
        f != FullPaperField.References(None)
    {
      InMap(AllAuthorFields(), FullPaperField.FromAuthor, f);
      InMap(AllBasePaperFields(), FullPaperField.FromBase, f);
      InMap(AllPaperInfoFields(), FullPaperField.CitationsFrom, f);
      InMap(AllPaperInfoFields(), FullPaperField.ReferencesFrom, f);
      match f
      case Base(b) => assert b in AllBasePaperFields();
      case Authors(Some(a)) => assert a in AllAuthorFields();
      case Citations(Some(a)) => assert a in AllPaperInfoFields();
      case References(Some(a)) => assert a in AllPaperInfoFields();
      case Embedding => assert f in FULL_PAPER_FIELDS;
      case Tldr => assert f in FULL_PAPER_FIELDS;
      case _ =>
    }
  }

  /** The names `all_author_with_papers_fields` asks for are pairwise
      distinct: the one colliding value, `Papers(None)`, is left out. */
  lemma AllAuthorWithPapersFieldNamesDistinct()
    ensures var r := AllAuthorWithPapersFields();
      forall i, j :: 0 <= i < j < |r| ==> r[i].Display() != r[j].Display()
  {
    AllAuthorWithPapersFieldsMissesBarePapers();
    var r := AllAuthorWithPapersFields();
    forall i, j | 0 <= i < j < |r|
      ensures r[i].Display() != r[j].Display()
    {
      assert r[i] in r && r[j] in r;
      AuthorWithPapersDisplayCollision(r[i], r[j]);
    }
  }

  /** The names `all_paper_with_links_fields` asks for are pairwise
      distinct: the colliding `Authors(None)` is left out. */
  lemma AllPaperWithLinksFieldNamesDistinct()
    ensures var r := AllPaperWithLinksFields();
      forall i, j :: 0 <= i < j < |r| ==> r[i].Display() != r[j].Display()
  {
    AllPaperWithLinksFieldsMissesBareLinks();
    var r := AllPaperWithLinksFields();
    forall i, j | 0 <= i < j < |r|
      ensures r[i].Display() != r[j].Display()
    {
      assert r[i] in r && r[j] in r;
      PaperWithLinksDisplayCollision(r[i], r[j]);
    }
  }

  /** The names `all_full_paper_fields` asks for are pairwise distinct: the
      colliding `Authors(None)` is left out. */
  lemma AllFullPaperFieldNamesDistinct()
    ensures var r := AllFullPaperFields();
      forall i, j :: 0 <= i < j < |r| ==> r[i].Display() != r[j].Display()
  {
    AllFullPaperFieldsMissesBareLinks();
    var r := AllFullPaperFields();
    forall i, j | 0 <= i < j < |r|
      ensures r[i].Display() != r[j].Display()
    {
      assert r[i] in r && r[j] in r;
      FullPaperDisplayCollision(r[i], r[j]);
    }
  }
}
