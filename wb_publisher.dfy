/** The mock-only WordPress publisher: every draft gets a templated preview link. */
module WbPublisher {
  import Strings

  const SiteDraftPrefix := "https://anotherway0.wordpress.com/?p="
  const PreviewFlag := "&preview=true"

  class WordPressPublisher {
    /** Fixed at construction; no operation changes it. */
    const baseUrl: string

    constructor ()
      ensures baseUrl == "https://anotherway0.wordpress.com/wp-json/wp/v2/posts"
    {
      baseUrl := "https://anotherway0.wordpress.com/wp-json/wp/v2/posts";
    }

    /**
     * `create_draft`: the link is the fixed site prefix, the four digits of
     * the id and the preview flag; title and content do not enter it.
     */
    function CreateDraft(title: string, content: string, mockId: int): (link: string)
      requires 1000 <= mockId <= 9999
      ensures |link| == |SiteDraftPrefix| + 4 + |PreviewFlag|
      ensures link[..|SiteDraftPrefix|] == SiteDraftPrefix
      ensures link[|link| - |PreviewFlag|..] == PreviewFlag
      ensures Strings.AllDigits(link[|SiteDraftPrefix|..|SiteDraftPrefix| + 4])
      ensures Strings.ParseDecimal(link[|SiteDraftPrefix|..|SiteDraftPrefix| + 4]) == mockId
    {
      var digits := Strings.Decimal(mockId);
      Strings.FourDigits(mockId);
      Strings.DecimalRoundTrip(mockId);
      var link := SiteDraftPrefix + digits + PreviewFlag;
      assert link[|SiteDraftPrefix|..|SiteDraftPrefix| + 4] == digits;
      link
    }
  }

  /** The link of a draft depends on its id alone. */
  lemma DraftLinkIgnoresPost(p: WordPressPublisher, q: WordPressPublisher,
                             t1: string, c1: string, t2: string, c2: string, mockId: int)
    requires 1000 <= mockId <= 9999
    ensures p.CreateDraft(t1, c1, mockId) == q.CreateDraft(t2, c2, mockId)
  {
  }
}
