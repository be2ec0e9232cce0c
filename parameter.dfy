/** The field names a query may ask for (src/v1/parameter/paper.rs and
    src/v1/parameter/author.rs, one module here because each of the two
    source files uses the other's types). Each enum renders as the name the
    server expects; wrapping variants render as the wrapped field, and the
    link variants as a `prefix.field` path. */
module Parameter {
  import opened Core

  datatype PaperInfoField = PaperId | Url | Title | Venue | Year | Authors
  {
    function Display(): string
    {
      match this
      case PaperId => "paperId"
      case Url => "url"
      case Title => "title"
      case Venue => "venue"
      case Year => "year"
      case Authors => "authors"
    }
  }

  datatype BasePaperField =
    | Info(info: PaperInfoField)
    | Abstract
    | ExternalIds
    | ReferenceCount
    | CitationCount
    | InfluentialCitationCount
    | IsOpenAccess
    | FieldsOfStudy
  {
    function Display(): string
    {
      match this
      case Info(f) => f.Display()
      case Abstract => "abstract"
      case ExternalIds => "externalIds"
      case ReferenceCount => "referenceCount"
      case CitationCount => "citationCount"
      case InfluentialCitationCount => "influentialCitationCount"
      case IsOpenAccess => "isOpenAccess"
      case FieldsOfStudy => "fieldsOfStudy"
    }

    /** `From<PaperInfoField>`: renders as the field it wraps. */
    static function FromInfo(f: PaperInfoField): (r: BasePaperField)
      ensures r.Display() == f.Display() && r.Info?
    {
      BasePaperField.Info(f)
    }
  }

  datatype PaperField =
    | Base(base: BasePaperField)
    | Contexts
    | Intents
    | IsInfluential
  {
    function Display(): string
    {
      match this
      case Base(f) => f.Display()
      case Contexts => "contexts"
      case Intents => "intents"
      case IsInfluential => "isInfluential"
    }

    /** `From<BasePaperField>`: renders as the field it wraps. */
    static function FromBase(f: BasePaperField): (r: PaperField)
      ensures r.Display() == f.Display() && r.Base?
    {
      PaperField.Base(f)
    }

    /** `From<PaperInfoField>`: nests through `BasePaperField::Info`. */
    static function FromInfo(f: PaperInfoField): (r: PaperField)
      ensures r.Display() == f.Display() && r == PaperField.Base(BasePaperField.Info(f))
    {
      PaperField.Base(BasePaperField.FromInfo(f))
    }
  }

  datatype PaperWithLinksField =
    | Base(base: BasePaperField)
    | Authors(authors: Option<AuthorInfoField>)
    | Citations(citations: Option<PaperInfoField>)
    | References(references: Option<PaperInfoField>)
  {
    function Display(): string
    {
      match this
      case Base(f) => f.Display()
      case Authors(None) => "authors"
      case Authors(Some(f)) => "authors." + f.Display()
      case Citations(None) => "citations"
      case Citations(Some(f)) => "citations." + f.Display()
      case References(None) => "references"
      case References(Some(f)) => "references." + f.Display()
    }

    /** `citations_from`: the citations' own field, as `citations.<field>`. */
    static function CitationsFrom(f: PaperInfoField): (r: PaperWithLinksField)
      ensures r.Display() == "citations." + f.Display() && r.Citations? && r.citations.Some?
    {
      PaperWithLinksField.Citations(Some(f))
    }

    /** `references_from`: the references' own field, as `references.<field>`. */
    static function ReferencesFrom(f: PaperInfoField): (r: PaperWithLinksField)
      ensures r.Display() == "references." + f.Display() && r.References? && r.references.Some?
    {
      PaperWithLinksField.References(Some(f))
    }

    /** `From<BasePaperField>`. */
    static function FromBase(f: BasePaperField): (r: PaperWithLinksField)
      ensures r.Display() == f.Display() && r.Base?
    {
      PaperWithLinksField.Base(f)
    }

    /** `From<PaperInfoField>`: nests through `BasePaperField::Info`. */
    static function FromInfo(f: PaperInfoField): (r: PaperWithLinksField)
      ensures r.Display() == f.Display() && r == PaperWithLinksField.Base(BasePaperField.Info(f))
    {
      PaperWithLinksField.Base(BasePaperField.FromInfo(f))
    }

    /** `From<AuthorInfoField>`: the authors' own field, as `authors.<field>`. */
    static function FromAuthorInfo(f: AuthorInfoField): (r: PaperWithLinksField)
      ensures r.Display() == "authors." + f.Display() && r.Authors? && r.authors.Some?
    {
      PaperWithLinksField.Authors(Some(f))
    }
  }

  datatype FullPaperField =
    | Base(base: BasePaperField)
    | Authors(authors: Option<AuthorField>)
    | Citations(citations: Option<PaperInfoField>)
    | References(references: Option<PaperInfoField>)
    | Embedding
    | Tldr
  {
    function Display(): string
    {
      match this
      case Base(f) => f.Display()
      case Authors(None) => "authors"
      case Authors(Some(f)) => "authors." + f.Display()
      case Citations(None) => "citations"
      case Citations(Some(f)) => "citations." + f.Display()
      case References(None) => "references"
      case References(Some(f)) => "references." + f.Display()
      case Embedding => "embedding"
      case Tldr => "tldr"
    }

    /** `citations_from`. */
    static function CitationsFrom(f: PaperInfoField): (r: FullPaperField)
      ensures r.Display() == "citations." + f.Display() && r.Citations? && r.citations.Some?
    {
      FullPaperField.Citations(Some(f))
    }

    /** `references_from`. */
    static function ReferencesFrom(f: PaperInfoField): (r: FullPaperField)
      ensures r.Display() == "references." + f.Display() && r.References? && r.references.Some?
    {
      FullPaperField.References(Some(f))
    }

    /** `From<BasePaperField>`. */
    static function FromBase(f: BasePaperField): (r: FullPaperField)
      ensures r.Display() == f.Display() && r.Base?
    {
      FullPaperField.Base(f)
    }

    /** `From<PaperInfoField>`: nests through `BasePaperField::Info`. */
    static function FromInfo(f: PaperInfoField): (r: FullPaperField)
      ensures r.Display() == f.Display() && r == FullPaperField.Base(BasePaperField.Info(f))
    {
      FullPaperField.Base(BasePaperField.FromInfo(f))
    }

    /** `From<AuthorField>`. */
    static function FromAuthor(f: AuthorField): (r: FullPaperField)
      ensures r.Display() == "authors." + f.Display() && r.Authors? && r.authors.Some?
    {
      FullPaperField.Authors(Some(f))
    }

    /** `From<AuthorInfoField>`: nests through `AuthorField::Info`. */
    static function FromAuthorInfo(f: AuthorInfoField): (r: FullPaperField)
      ensures r.Display() == "authors." + f.Display() && r == FullPaperField.Authors(Some(AuthorField.Info(f)))
    {
      FullPaperField.Authors(Some(AuthorField.FromInfo(f)))
    }
  }

  datatype AuthorInfoField = AuthorId | Name
  {
    function Display(): string
    {
      match this
      case AuthorId => "authorId"
      case Name => "name"
    }
  }

  datatype AuthorField =
    | Info(info: AuthorInfoField)
    | ExternalIds
    | Url
    | Aliases
    | Affiliations
    | Homepage
    | PaperCount
    | CitationCount
    | HIndex
  {
    function Display(): string
    {
      match this
      case Info(f) => f.Display()
      case ExternalIds => "externalIds"
      case Url => "url"
      case Aliases => "aliases"
      case Affiliations => "affiliations"
      case Homepage => "homepage"
      case PaperCount => "paperCount"
      case CitationCount => "citationCount"
      case HIndex => "hIndex"
    }

    /** `From<AuthorInfoField>`. */
    static function FromInfo(f: AuthorInfoField): (r: AuthorField)
      ensures r.Display() == f.Display() && r.Info?
    {
      AuthorField.Info(f)
    }
  }

  datatype AuthorWithPapersField =
    | Author(author: AuthorField)
    | Papers(papers: Option<BasePaperField>)
  {
    /** `Papers(None)` renders as `papers.title`, the server failing on a
        bare `papers`. */
    function Display(): string
    {
      match this
      case Author(f) => f.Display()
      case Papers(Some(f)) => "papers." + f.Display()
      case Papers(None) => "papers." + BasePaperField.Info(PaperInfoField.Title).Display()
    }

    /** `From<AuthorField>`. */
    static function FromAuthor(f: AuthorField): (r: AuthorWithPapersField)
      ensures r.Display() == f.Display() && r.Author?
    {
      AuthorWithPapersField.Author(f)
    }

    /** `From<AuthorInfoField>`: nests through `AuthorField::Info`. */
    static function FromAuthorInfo(f: AuthorInfoField): (r: AuthorWithPapersField)
      ensures r.Display() == f.Display() && r == AuthorWithPapersField.Author(AuthorField.Info(f))
    {
      AuthorWithPapersField.Author(AuthorField.FromInfo(f))
    }

    /** `From<BasePaperField>`: the papers' own field, as `papers.<field>`. */
    static function FromBase(f: BasePaperField): (r: AuthorWithPapersField)
      ensures r.Display() == "papers." + f.Display() && r.Papers? && r.papers.Some?
    {
      AuthorWithPapersField.Papers(Some(f))
    }

    /** `From<PaperInfoField>`: nests through `BasePaperField::Info`. */
    static function FromInfo(f: PaperInfoField): (r: AuthorWithPapersField)
      ensures r.Display() == "papers." + f.Display() && r == AuthorWithPapersField.Papers(Some(BasePaperField.Info(f)))
    {
      AuthorWithPapersField.Papers(Some(BasePaperField.FromInfo(f)))
    }
  }

  /** No plain field name contains a dot: only the link variants do. */
  predicate Dotless(s: string)
  {
    forall i :: 0 <= i < |s| ==> s[i] != '.'
  }

  /** Every base paper name is a plain name. */
  lemma BaseNamesDotless(f: BasePaperField)
    ensures Dotless(f.Display())
  {
  }

  /** Every author name is a plain name. */
  lemma AuthorNamesDotless(f: AuthorField)
    ensures Dotless(f.Display())
  {
  }

  /** The bare link names and the other plain paper names hold no dot. */
  lemma LinkNamesDotless()
    ensures Dotless("authors") && Dotless("citations") && Dotless("references")
    ensures Dotless("embedding") && Dotless("tldr") && Dotless("papers")
  {
  }

  /** Where the first dot of `s` is; `|s|` when there is none. */
  function FirstDot(s: string): (r: nat)
    ensures r <= |s|
    ensures forall i :: 0 <= i < r ==> s[i] != '.'
    ensures r < |s| ==> s[r] == '.'
  {
    if |s| == 0 || s[0] == '.' then 0 else 1 + FirstDot(s[1..])
  }

  /** The shape of a rendered name: a plain name, or `prefix.field`. */
  datatype Rendered = Plain(name: string) | Path(prefix: string, field: string)

  function Text(r: Rendered): string
  {
    match r
    case Plain(n) => n
    case Path(p, a) => p + "." + a
  }

  /** Plain names and prefixes hold no dot. */
  predicate WellFormed(r: Rendered)
  {
    match r
    case Plain(n) => Dotless(n)
    case Path(p, _) => Dotless(p)
  }

  /** The first dot of a path is the one after its prefix. */
  lemma PathFirstDot(p: string, a: string)
    requires Dotless(p)
    ensures FirstDot(p + "." + a) == |p|
  {
    var x := p + "." + a;
    assert x[|p|] == '.';
    assert forall i :: 0 <= i < |p| ==> x[i] == p[i];
  }

  /** A well-formed rendering is read back from its text: the text has a dot
      exactly when it is a path, and the first dot splits prefix from
      field. */
  lemma TextInjective(r1: Rendered, r2: Rendered)
    requires WellFormed(r1) && WellFormed(r2)
    ensures Text(r1) == Text(r2) <==> r1 == r2
  {
    var x, y := Text(r1), Text(r2);
    if r1.Path? {
      PathFirstDot(r1.prefix, r1.field);
    }
    if r2.Path? {
      PathFirstDot(r2.prefix, r2.field);
    }
    if x == y && r1.Path? && r2.Path? {
      assert r1.prefix == x[..FirstDot(x)] && r1.field == x[FirstDot(x) + 1..];
      assert r2.prefix == y[..FirstDot(y)] && r2.field == y[FirstDot(y) + 1..];
    }
  }

  /** Paper info names are pairwise distinct. */
  lemma PaperInfoDisplayInjective(f: PaperInfoField, g: PaperInfoField)
    ensures f.Display() == g.Display() <==> f == g
  {
  }

  /** Author info names are pairwise distinct. */
  lemma AuthorInfoDisplayInjective(f: AuthorInfoField, g: AuthorInfoField)
    ensures f.Display() == g.Display() <==> f == g
  {
  }

  /** The thirteen base paper names are pairwise distinct: `Info(f)` renders
      as `f`, and no info name is also one of the seven other names. */
  lemma BasePaperDisplayInjective(f: BasePaperField, g: BasePaperField)
    ensures f.Display() == g.Display() <==> f == g
  {
  }

  /** The sixteen paper names are pairwise distinct. */
  lemma PaperDisplayInjective(f: PaperField, g: PaperField)
    ensures f.Display() == g.Display() <==> f == g
  {
    if f.Base? && g.Base? {
      BasePaperDisplayInjective(f.base, g.base);
    }
  }

  /** The ten author names are pairwise distinct. */
  lemma AuthorDisplayInjective(f: AuthorField, g: AuthorField)
    ensures f.Display() == g.Display() <==> f == g
  {
  }

  /** The shape of a `PaperWithLinksField` name. */
  function LinksRendering(f: PaperWithLinksField): (r: Rendered)
    ensures WellFormed(r) && Text(r) == f.Display()
  {
    LinkNamesDotless();
    match f
    case Base(b) => BaseNamesDotless(b); Plain(b.Display())
    case Authors(None) => Plain("authors")
    case Authors(Some(a)) => Path("authors", a.Display())
    case Citations(None) => Plain("citations")
    case Citations(Some(a)) => Path("citations", a.Display())
    case References(None) => Plain("references")
    case References(Some(a)) => Path("references", a.Display())
  }

  /** The one pair of distinct `PaperWithLinksField` values with the same
      name: `Base(Info(Authors))` and `Authors(None)` both render `authors`. */
  lemma PaperWithLinksDisplayCollision(f: PaperWithLinksField, g: PaperWithLinksField)
    ensures f.Display() == g.Display() <==>
      f == g ||
      {f, g} == {PaperWithLinksField.Base(BasePaperField.Info(PaperInfoField.Authors)), PaperWithLinksField.Authors(None)}
  {
    TextInjective(LinksRendering(f), LinksRendering(g));
    match (f, g)
    case (Base(a), Base(b)) => BasePaperDisplayInjective(a, b);
    case (Authors(Some(a)), Authors(Some(b))) => AuthorInfoDisplayInjective(a, b);
    case (Citations(Some(a)), Citations(Some(b))) => PaperInfoDisplayInjective(a, b);
    case (References(Some(a)), References(Some(b))) => PaperInfoDisplayInjective(a, b);
    case _ =>
  }

  /** The shape of a `FullPaperField` name. */
  function FullRendering(f: FullPaperField): (r: Rendered)
    ensures WellFormed(r) && Text(r) == f.Display()
  {
    LinkNamesDotless();
    match f
    case Base(b) => BaseNamesDotless(b); Plain(b.Display())
    case Authors(None) => Plain("authors")
    case Authors(Some(a)) => Path("authors", a.Display())
    case Citations(None) => Plain("citations")
    case Citations(Some(a)) => Path("citations", a.Display())
    case References(None) => Plain("references")
    case References(Some(a)) => Path("references", a.Display())
    case Embedding => Plain("embedding")
    case Tldr => Plain("tldr")
  }

  /** The one pair of distinct `FullPaperField` values with the same name:
      `Base(Info(Authors))` and `Authors(None)` both render `authors`. */
  lemma FullPaperDisplayCollision(f: FullPaperField, g: FullPaperField)
    ensures f.Display() == g.Display() <==>
      f == g ||
      {f, g} == {FullPaperField.Base(BasePaperField.Info(PaperInfoField.Authors)), FullPaperField.Authors(None)}
  {
    TextInjective(FullRendering(f), FullRendering(g));
    match (f, g)
    case (Base(a), Base(b)) => BasePaperDisplayInjective(a, b);
    case (Authors(Some(a)), Authors(Some(b))) => AuthorDisplayInjective(a, b);
    case (Citations(Some(a)), Citations(Some(b))) => PaperInfoDisplayInjective(a, b);
    case (References(Some(a)), References(Some(b))) => PaperInfoDisplayInjective(a, b);
    case _ =>
  }

  /** The shape of an `AuthorWithPapersField` name. */
  function AuthorWithPapersRendering(f: AuthorWithPapersField): (r: Rendered)
    ensures WellFormed(r) && Text(r) == f.Display()
  {
    match f
    case Author(a) => AuthorNamesDotless(a); Plain(a.Display())
    case Papers(None) => Path("papers", "title")
    case Papers(Some(b)) => Path("papers", b.Display())
  }

  /** The one pair of distinct `AuthorWithPapersField` values with the same
      name: `Papers(None)` and `Papers(Some(Info(Title)))` both render
      `papers.title`. */
  lemma AuthorWithPapersDisplayCollision(f: AuthorWithPapersField, g: AuthorWithPapersField)
    ensures f.Display() == g.Display() <==>
      f == g ||
      {f, g} == {AuthorWithPapersField.Papers(None), AuthorWithPapersField.Papers(Some(BasePaperField.Info(PaperInfoField.Title)))}
  {
    TextInjective(AuthorWithPapersRendering(f), AuthorWithPapersRendering(g));
    match (f, g)
    case (Author(a), Author(b)) => AuthorDisplayInjective(a, b);
    case (Papers(Some(a)), Papers(Some(b))) => BasePaperDisplayInjective(a, b);
    case (Papers(None), Papers(Some(b))) => BasePaperDisplayInjective(BasePaperField.Info(PaperInfoField.Title), b);
    case (Papers(Some(a)), Papers(None)) => BasePaperDisplayInjective(a, BasePaperField.Info(PaperInfoField.Title));
    case _ =>
  }
}
