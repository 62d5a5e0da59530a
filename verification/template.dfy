/** The notification text: a fixed template around the channel name, the
    author's nickname, the message content and the link, and its inverse,
    which recovers the four fields once their lengths are known. */
module Template {
  import opened Wrappers

  /** The four values the template embeds. */
  datatype Fields = Fields(channelName: string, nickName: string, content: string, messageUrl: string)

  /** The literal pieces of the template, in order. */
  const Lead: string := "\n"
  const At: string := "で"
  const Middle: string := "からの発言\n--------\n"
  const Trailer: string := "\n-------- "

  /** The number of characters the template adds around the fields. */
  const FixedLength: nat := |Lead| + |At| + |Middle| + |Trailer|

  /** The notification text built from the fields. */
  function Compose(f: Fields): (text: string)
    ensures |text| == FixedLength + |f.channelName| + |f.nickName| + |f.content| + |f.messageUrl|
    ensures text[|text| - |f.messageUrl|..] == f.messageUrl
  {
    Lead + f.channelName + At + f.nickName + Middle + f.content + Trailer + f.messageUrl
  }

  /** Reads a notification text back into its fields, given the lengths of
      the channel name, the nickname and the link; `None` when the literal
      pieces of the template are not where they belong. */
  function Decompose(text: string, channelLen: nat, nickLen: nat, urlLen: nat): (r: Option<Fields>)
    ensures r.Some? ==> |r.value.channelName| == channelLen && |r.value.nickName| == nickLen
                        && |r.value.messageUrl| == urlLen
  {
    var channelEnd := |Lead| + channelLen;
    var nickEnd := channelEnd + |At| + nickLen;
    var contentStart := nickEnd + |Middle|;
    if |text| < contentStart + |Trailer| + urlLen then None
    else
      var contentEnd := |text| - urlLen - |Trailer|;
      if && text[..|Lead|] == Lead
         && text[channelEnd..channelEnd + |At|] == At
         && text[nickEnd..contentStart] == Middle
         && text[contentEnd..contentEnd + |Trailer|] == Trailer
      then Some(Fields(text[|Lead|..channelEnd], text[channelEnd + |At|..nickEnd],
                       text[contentStart..contentEnd], text[contentEnd + |Trailer|..]))
      else None
  }

  /** Reading a composed text back gives the fields it was built from. */
  lemma {:induction false} DecomposeCompose(f: Fields)
    ensures Decompose(Compose(f), |f.channelName|, |f.nickName|, |f.messageUrl|) == Some(f)
  {
    var text := Compose(f);
    var channelEnd := |Lead| + |f.channelName|;
    var nickEnd := channelEnd + |At| + |f.nickName|;
    var contentStart := nickEnd + |Middle|;
    var contentEnd := contentStart + |f.content|;
    assert text == Lead + f.channelName + At + f.nickName + Middle + f.content + Trailer + f.messageUrl;
    assert text[..|Lead|] == Lead;
    assert text[|Lead|..channelEnd] == f.channelName;
    assert text[channelEnd..channelEnd + |At|] == At;
    assert text[channelEnd + |At|..nickEnd] == f.nickName;
    assert text[nickEnd..contentStart] == Middle;
    assert text[contentStart..contentEnd] == f.content;
    assert text[contentEnd..contentEnd + |Trailer|] == Trailer;
    assert text[contentEnd + |Trailer|..] == f.messageUrl;
  }

  /** Whatever `Decompose` reads is exactly what `Compose` writes. */
  lemma {:induction false} ComposeDecompose(text: string, channelLen: nat, nickLen: nat, urlLen: nat)
    requires Decompose(text, channelLen, nickLen, urlLen).Some?
    ensures Compose(Decompose(text, channelLen, nickLen, urlLen).value) == text
  {
    var f := Decompose(text, channelLen, nickLen, urlLen).value;
    var channelEnd := |Lead| + channelLen;
    var nickEnd := channelEnd + |At| + nickLen;
    var contentStart := nickEnd + |Middle|;
    var contentEnd := |text| - urlLen - |Trailer|;
    assert text[..|Lead|] == Lead && text[channelEnd..channelEnd + |At|] == At;
    assert text[nickEnd..contentStart] == Middle && text[contentEnd..contentEnd + |Trailer|] == Trailer;
    // grow a prefix of `text` one piece of the template at a time
    PrefixJoin(text, |Lead|, channelEnd);
    PrefixJoin(text, channelEnd, channelEnd + |At|);
    PrefixJoin(text, channelEnd + |At|, nickEnd);
    PrefixJoin(text, nickEnd, contentStart);
    PrefixJoin(text, contentStart, contentEnd);
    PrefixJoin(text, contentEnd, contentEnd + |Trailer|);
    PrefixJoin(text, contentEnd + |Trailer|, |text|);
    assert text[..|text|] == text;
  }

  /** A prefix of `s` is a shorter prefix followed by the slice between. */
  lemma PrefixJoin<T>(s: seq<T>, i: nat, j: nat)
    requires i <= j <= |s|
    ensures s[..j] == s[..i] + s[i..j]
  {
  }

  /** Two notification texts with equally long names and links are equal
      only when all four fields are. */
  lemma ComposeInjective(f: Fields, g: Fields)
    requires |f.channelName| == |g.channelName| && |f.nickName| == |g.nickName|
    requires |f.messageUrl| == |g.messageUrl|
    requires Compose(f) == Compose(g)
    ensures f == g
  {
    DecomposeCompose(f);
    DecomposeCompose(g);
  }
}
