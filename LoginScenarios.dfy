/** Worked cases of request-token scraping: the page layouts the scraper meets and what it
    makes of them. */
module LoginScenarios {
  import opened Outcomes
  import opened StringSearch
  import opened BoxLogin

  /** The letter `r` opens the marker and occurs nowhere else in it, so an occurrence of the
      marker cannot begin inside a prefix that does not contain it and run into a marker that
      follows the prefix. */
  lemma MarkerFirstAfterPrefix(body: string, n: nat)
    requires n + |RequestTokenMarker| <= |body|
    requires body[n..n + |RequestTokenMarker|] == RequestTokenMarker
    requires !Contains(body[..n], RequestTokenMarker)
    ensures FirstOccurrence(body, RequestTokenMarker, n)
  {
    var m := RequestTokenMarker;
    forall j | 0 <= j < n ensures !OccursAt(body, m, j) {
      if j + |m| <= n {
        assert body[j..j + |m|] == body[..n][j..j + |m|];
        assert !OccursAt(body[..n], m, j);
      } else {
        assert body[n] == body[n..n + |m|][0] == 'r';
        assert forall d :: 0 < d < |m| ==> m[d] != 'r';
      }
    }
  }

  /** The general layout: after the first marker, a gap without quotes, then a quoted text X
      without quotes; the scraper yields X whatever follows. */
  lemma ExtractLayout(pre: string, gap: string, x: string, post: string)
    requires !Contains(pre, RequestTokenMarker)
    requires Quote !in gap && Quote !in x
    ensures ExtractRequestToken(pre + RequestTokenMarker + gap + "'" + x + "'" + post) == Ok(x)
  {
    var body := pre + RequestTokenMarker + gap + "'" + x + "'" + post;
    var n, m := |pre|, |RequestTokenMarker|;
    var s := n + m + |gap|;
    var e := s + 1 + |x|;
    assert body[..n] == pre;
    assert body[n..n + m] == RequestTokenMarker;
    MarkerFirstAfterPrefix(body, n);
    forall j | n <= j < s ensures body[j] != Quote {
      if j < n + m {
        assert body[j] == RequestTokenMarker[j - n];
      } else {
        assert body[j] == gap[j - n - m];
      }
    }
    forall j | s + 1 <= j < e ensures body[j] != Quote {
      assert body[j] == x[j - s - 1];
    }
    assert body[s + 1..e] == x;
    ExtractBetweenQuotes(body, n, s, e);
  }

  /** A page written as `request_token='X'` (X without quotes, no marker before it) yields X. */
  lemma ExtractQuotedValue(pre: string, x: string, post: string)
    requires !Contains(pre, RequestTokenMarker)
    requires Quote !in x
    ensures ExtractRequestToken(pre + "request_token='" + x + "'" + post) == Ok(x)
  {
    ExtractLayout(pre, "=", x, post);
    assert pre + "request_token='" + x + "'" + post == pre + RequestTokenMarker + "=" + "'" + x + "'" + post;
  }

  /** The form where the marker is itself a quoted attribute value, as in
      `name='request_token' value='abc'`: the quote closing `name` is the first quote after the
      marker, so the scraper yields the text up to the next quote, the one opening `value` (here
      " value="), and never the value that follows it in `rest`. */
  lemma ExtractAttributeForm(pre: string, between: string, rest: string)
    requires !Contains(pre, RequestTokenMarker)
    requires Quote !in between
    ensures ExtractRequestToken(pre + RequestTokenMarker + "'" + between + "'" + rest) == Ok(between)
  {
    ExtractLayout(pre, "", between, rest);
    assert pre + RequestTokenMarker + "" == pre + RequestTokenMarker;
  }
}
