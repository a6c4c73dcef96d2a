/** GET /api/metadata (src/app/api/metadata/route.ts): fetches a page and
    extracts its title, description and image from the meta tags, falling
    back to the Readability article text when there is no description. The
    upstream answer and the parsed page are inputs. */
module PageMetadata {
  import opened Common

  /** What the parsed document offers: the content attribute of each meta
      tag the route queries (None when the tag or attribute is missing), the
      `<title>` text, and the Readability article's text (None when
      Readability finds no article). */
  datatype Page = Page(
    ogTitle: Option<string>,
    twitterTitle: Option<string>,
    titleText: Option<string>,
    ogDescription: Option<string>,
    twitterDescription: Option<string>,
    metaDescription: Option<string>,
    ogImage: Option<string>,
    twitterImage: Option<string>,
    twitterImageSrc: Option<string>,
    article: Option<string>)

  /** The response record; `content` is only present when Readability ran and found an article. */
  datatype Metadata = Metadata(title: string, description: string, image: Option<string>, content: Option<string>)

  /** The upstream fetch: it throws (as does parsing), or answers with a status. */
  datatype Fetch = Thrown | Answer(ok: bool, status: nat, page: Page)

  const MaxDescription: nat := 300

  /** The description cleanup `replace(/\s+/g, ' ').trim().substring(0, 300)`:
      at most 300 characters, no two whitespace characters in a row, no
      leading whitespace, and empty exactly when the text was all whitespace. */
  function Clean(s: string): (r: string)
    ensures |r| <= MaxDescription
    ensures NoDoubleSpace(r)
    ensures r == [] || !IsSpace(r[0])
    ensures r == [] <==> IsBlank(s)
  {
    var collapsed := CollapseSpaces(s);
    CollapseSpacesProperties(s);
    var trimmed := Trim(collapsed);
    NoDoubleSpaceTrim(collapsed);
    CollapseBlankIff(s);
    TrimEmptyIffBlank(collapsed);
    var r := Take(trimmed, MaxDescription);
    NoDoubleSpaceSlice(trimmed, 0, |r|);
    assert r != [] ==> r[0] == trimmed[0];
    r
  }

  /** The description the meta tags offer: og, then twitter, then the plain description. */
  function MetaDescription(p: Page): string
  {
    OrElse([p.ogDescription, p.twitterDescription, p.metaDescription], "")
  }

  /** What the route makes of a page: the three fallback chains, the
      Readability fallback when the meta tags give no description, and the
      cleanup of a non-empty description. */
  predicate Extracted(p: Page, m: Metadata)
  {
    && m.title == OrElse([p.ogTitle, p.twitterTitle, p.titleText], "")
    && m.image == FirstTruthy([p.ogImage, p.twitterImage, p.twitterImageSrc])
    && (MetaDescription(p) != "" ==> m.content == None && m.description == Clean(MetaDescription(p)))
    && (MetaDescription(p) == "" ==> m.content == p.article)
    && (MetaDescription(p) == "" && p.article.Some? && p.article.value != "" ==>
          m.description == Clean(Trim(FirstPiece(p.article.value, '\n'))))
    && (MetaDescription(p) == "" && (p.article.None? || p.article.value == "") ==> m.description == "")
  }

  /** The description of a record: at most 300 characters, no double
      whitespace, no leading whitespace. The clauses of `Extracted` leave no
      freedom, so a page has exactly one record. */
  lemma ExtractedProperties(p: Page, m1: Metadata, m2: Metadata)
    requires Extracted(p, m1)
    ensures |m1.description| <= MaxDescription && NoDoubleSpace(m1.description)
    ensures m1.description == [] || !IsSpace(m1.description[0])
    ensures Extracted(p, m2) ==> m1 == m2
  {
  }

  /** Builds the record field by field as the route does. */
  method Extract(p: Page) returns (m: Metadata)
    ensures Extracted(p, m)
    ensures |m.description| <= MaxDescription && NoDoubleSpace(m.description)
    ensures m.description == [] || !IsSpace(m.description[0])
  {
    m := Metadata("", "", None, None);
    m := m.(title := OrElse([p.ogTitle, p.twitterTitle, p.titleText], ""));
    m := m.(description := OrElse([p.ogDescription, p.twitterDescription, p.metaDescription], ""));
    m := m.(image := FirstTruthy([p.ogImage, p.twitterImage, p.twitterImageSrc]));
    if m.description == "" {
      if p.article.Some? {
        m := m.(content := p.article);
        if m.description == "" && p.article.value != "" {
          m := m.(description := Trim(FirstPiece(p.article.value, '\n')));
        }
      }
    }
    if m.description != "" {
      m := m.(description := Clean(m.description));
    }
  }

  /** A meta description of whitespace only is truthy, so Readability is not
      consulted, and the cleanup then leaves the empty string. */
  method BlankMetaDescription(p: Page) returns (m: Metadata)
    requires p.ogDescription.Some? && p.ogDescription.value != "" && IsBlank(p.ogDescription.value)
    ensures m.description == "" && m.content == None
  {
    m := Extract(p);
  }

  /** The handler: 400 without a url, the upstream status for a failed
      fetch, 500 when anything throws, otherwise the extracted record. */
  method Get(url: Option<string>, fetched: Fetch) returns (r: Reply<Metadata>)
    ensures !Truthy(url) ==> r == Failure(400, "URL is required")
    ensures Truthy(url) && fetched.Thrown? ==> r == Failure(500, "Failed to extract metadata")
    ensures Truthy(url) && fetched.Answer? && !fetched.ok ==> r == Failure(fetched.status, "Failed to fetch URL content")
    ensures r.Reply? <==> Truthy(url) && fetched.Answer? && fetched.ok
    ensures r.Reply? ==> Extracted(fetched.page, r.body)
  {
    if !Truthy(url) {
      return Failure(400, "URL is required");
    }
    match fetched
    case Thrown =>
      r := Failure(500, "Failed to extract metadata");
    case Answer(ok, status, page) =>
      if !ok {
        r := Failure(status, "Failed to fetch URL content");
      } else {
        var m := Extract(page);
        r := Reply(m);
      }
  }
}
