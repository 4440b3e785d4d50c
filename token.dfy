/** The normalisation half of `fetchTokenData` (lib/utils/token.ts): from the parsed
    price-API payload to the fixed `TokenData` shape, or `None` (the source's `null`).
    The HTTP request and the JSON parse before it are not part of this model; the
    payload arrives as a value whose every field may be missing. */
module TokenFetch {
  import opened Types

  datatype RawBaseToken = RawBaseToken(address: Option<string>, name: Option<string>,
                                       symbol: Option<string>)

  datatype RawPriceChange = RawPriceChange(h24: Option<real>)

  datatype RawVolume = RawVolume(h24: Option<real>, h6: Option<real>, h1: Option<real>,
                                 m5: Option<real>)

  datatype RawTxns = RawTxns(h24: Option<TxnCounts>, h6: Option<TxnCounts>,
                             h1: Option<TxnCounts>, m5: Option<TxnCounts>)

  /** One `{type, url}` element of `info.socials`. */
  datatype RawSocial = RawSocial(kind: string, url: string)

  datatype RawInfo = RawInfo(imageUrl: Option<string>, header: Option<string>,
                             websites: Option<seq<string>>, socials: Option<seq<RawSocial>>)

  datatype RawPair = RawPair(
    baseToken: Option<RawBaseToken>,
    priceUsd: Option<string>,
    priceChange: Option<RawPriceChange>,
    volume: Option<RawVolume>,
    txns: Option<RawTxns>,
    marketCap: Option<real>,
    info: Option<RawInfo>)

  /** The parsed response body `{pairs: [...]}`. */
  datatype Payload = Payload(pairs: Option<seq<RawPair>>)

  /** JavaScript truthiness of an optional string: present and not `""`. */
  predicate Truthy(s: Option<string>) {
    s.Some? && s.value != ""
  }

  /** `s || default` */
  function StringOr(s: Option<string>, default: string): string {
    if Truthy(s) then s.value else default
  }

  /** `s || null` */
  function StringOrNull(s: Option<string>): Option<string> {
    if Truthy(s) then s else None
  }

  /** `n || 0` on an optional number (NaN is not modelled, so only 0 is falsy). */
  function NumberOrZero(n: Option<real>): real {
    if n.Some? && n.value != 0.0 then n.value else 0.0
  }

  /** `bucket || { buys: 0, sells: 0 }`: an object is always truthy, so a present
      bucket is copied whatever it holds. */
  function CountsOrZero(c: Option<TxnCounts>): TxnCounts {
    if c.Some? then c.value else TxnCounts(0.0, 0.0)
  }

  /** The url of the last social entry of the given type, if any. */
  function LastOfKind(list: seq<RawSocial>, kind: string): Option<string> {
    if list == [] then None
    else if list[|list| - 1].kind == kind then Some(list[|list| - 1].url)
    else LastOfKind(list[..|list| - 1], kind)
  }

  function OrElse(a: Option<string>, b: Option<string>): Option<string> {
    if a.Some? then a else b
  }

  /** The table after the `websites[0]` step: all four keys null except perhaps `website`. */
  function WebsiteTable(info: Option<RawInfo>): Socials {
    var website :=
      if info.Some? && info.value.websites.Some? && |info.value.websites.value| > 0
      then Some(info.value.websites.value[0]) else None;
    Socials(website, None, None, None)
  }

  /** One step of the `forEach` over `info.socials`: an entry whose type is one of the
      four keys overwrites that key; any other type is ignored. */
  function SetSocial(s: Socials, social: RawSocial): Socials {
    if social.kind == "website" then s.(website := Some(social.url))
    else if social.kind == "twitter" then s.(twitter := Some(social.url))
    else if social.kind == "telegram" then s.(telegram := Some(social.url))
    else if social.kind == "discord" then s.(discord := Some(social.url))
    else s
  }

  /** The table after the social entries: each key holds the url of the last entry of
      its type, or what it held before. */
  function Overlay(base: Socials, list: seq<RawSocial>): Socials {
    Socials(OrElse(LastOfKind(list, "website"), base.website),
            OrElse(LastOfKind(list, "twitter"), base.twitter),
            OrElse(LastOfKind(list, "telegram"), base.telegram),
            OrElse(LastOfKind(list, "discord"), base.discord))
  }

  /** The finished social-link table for a pair's `info`. */
  function SocialsOf(info: Option<RawInfo>): Socials {
    var base := WebsiteTable(info);
    if info.Some? && info.value.socials.Some? then Overlay(base, info.value.socials.value)
    else base
  }

  /** The validation of lines 10-20: a first pair exists and its base token has a
      truthy name and symbol. */
  predicate Accepted(p: Payload) {
    && p.pairs.Some? && |p.pairs.value| > 0
    && p.pairs.value[0].baseToken.Some?
    && Truthy(p.pairs.value[0].baseToken.value.name)
    && Truthy(p.pairs.value[0].baseToken.value.symbol)
  }

  /** The returned record, built from a validated pair and its social table. */
  function Assemble(address: string, pair: RawPair, socials: Socials): TokenData
    requires pair.baseToken.Some? && pair.baseToken.value.name.Some?
    requires pair.baseToken.value.symbol.Some?
  {
    var bt := pair.baseToken.value;
    var pc := pair.priceChange;
    var v := pair.volume;
    var t := pair.txns;
    TokenData(
      BaseToken(StringOr(bt.address, address), bt.name.value, bt.symbol.value),
      StringOr(pair.priceUsd, "0"),
      PriceChange(if pc.Some? then NumberOrZero(pc.value.h24) else 0.0),
      Volume(if v.Some? then NumberOrZero(v.value.h24) else 0.0,
             if v.Some? then NumberOrZero(v.value.h6) else 0.0,
             if v.Some? then NumberOrZero(v.value.h1) else 0.0,
             if v.Some? then NumberOrZero(v.value.m5) else 0.0),
      Txns(if t.Some? then CountsOrZero(t.value.h24) else TxnCounts(0.0, 0.0),
           if t.Some? then CountsOrZero(t.value.h6) else TxnCounts(0.0, 0.0),
           if t.Some? then CountsOrZero(t.value.h1) else TxnCounts(0.0, 0.0),
           if t.Some? then CountsOrZero(t.value.m5) else TxnCounts(0.0, 0.0)),
      NumberOrZero(pair.marketCap),
      Info(if pair.info.Some? then StringOrNull(pair.info.value.imageUrl) else None,
           if pair.info.Some? then StringOrNull(pair.info.value.header) else None,
           socials))
  }

  /** What `fetchTokenData(address)` returns for a parsed payload `p`. */
  function Normalise(address: string, p: Payload): Option<TokenData> {
    if Accepted(p) then
      var pair := p.pairs.value[0];
      Some(Assemble(address, pair, SocialsOf(pair.info)))
    else None
  }

  /** Builds the social-link table as lines 23-42 do: initialise, take `websites[0]`,
      then let each social entry overwrite its key. */
  method BuildSocials(info: Option<RawInfo>) returns (s: Socials)
    ensures s == SocialsOf(info)
  {
    s := Socials(None, None, None, None);
    if info.Some? && info.value.websites.Some? && |info.value.websites.value| > 0 {
      s := s.(website := Some(info.value.websites.value[0]));
    }
    if info.Some? && info.value.socials.Some? {
      var list := info.value.socials.value;
      ghost var base := s;
      for i := 0 to |list|
        invariant s == Overlay(base, list[..i])
      {
        assert list[..i + 1][..i] == list[..i];
        s := SetSocial(s, list[i]);
      }
      assert list[..|list|] == list;
    }
  }

  /** The normalisation body of `fetchTokenData`: reject, then build the record. */
  method FetchTokenData(address: string, p: Payload) returns (r: Option<TokenData>)
    ensures r == Normalise(address, p)
  {
    if p.pairs.None? || |p.pairs.value| == 0 {
      return None;
    }
    var pair := p.pairs.value[0];
    if pair.baseToken.None? || !Truthy(pair.baseToken.value.name)
       || !Truthy(pair.baseToken.value.symbol) {
      return None;
    }
    var socials := BuildSocials(pair.info);
    r := Some(Assemble(address, pair, socials));
  }

  /** A record in the form the normaliser produces: name, symbol and price present,
      image and header either absent or non-empty. */
  predicate NormalForm(d: TokenData) {
    && d.baseToken.name != "" && d.baseToken.symbol != "" && d.priceUsd != ""
    && d.info.imageUrl != Some("") && d.info.header != Some("")
  }

  /** The social table as typed entries, one per present key. */
  function SocialList(s: Socials): seq<RawSocial> {
    (if s.website.Some? then [RawSocial("website", s.website.value)] else [])
    + (if s.twitter.Some? then [RawSocial("twitter", s.twitter.value)] else [])
    + (if s.telegram.Some? then [RawSocial("telegram", s.telegram.value)] else [])
    + (if s.discord.Some? then [RawSocial("discord", s.discord.value)] else [])
  }

  /** A payload whose single pair carries every field of `d`. */
  function Encode(d: TokenData): Payload {
    Payload(Some([RawPair(
      Some(RawBaseToken(Some(d.baseToken.address), Some(d.baseToken.name),
                        Some(d.baseToken.symbol))),
      Some(d.priceUsd),
      Some(RawPriceChange(Some(d.priceChange.h24))),
      Some(RawVolume(Some(d.volume.h24), Some(d.volume.h6), Some(d.volume.h1),
                     Some(d.volume.m5))),
      Some(RawTxns(Some(d.txns.h24), Some(d.txns.h6), Some(d.txns.h1), Some(d.txns.m5))),
      Some(d.marketCap),
      Some(RawInfo(d.info.imageUrl, d.info.header, None, Some(SocialList(d.info.socials)))))]))
  }

  // ---------------------------------------------------------------------------
  // Properties of the normaliser

  /** A missing or empty `pairs`, or a first pair without a usable base token, is `null`;
      otherwise there is a result. */
  lemma NormaliseRejects(address: string, p: Payload)
    ensures p.pairs.None? ==> Normalise(address, p).None?
    ensures p.pairs == Some([]) ==> Normalise(address, p).None?
    ensures p.pairs.Some? && |p.pairs.value| > 0 ==>
              var bt := p.pairs.value[0].baseToken;
              (Normalise(address, p).None? <==>
                 bt.None? || bt.value.name in {None, Some("")} || bt.value.symbol in {None, Some("")})
  {
  }

  /** Only `pairs[0]` is read: payloads that agree on it give the same result. */
  lemma NormaliseReadsFirstPairOnly(address: string, p: Payload, q: Payload)
    requires p.pairs.Some? && q.pairs.Some? && |p.pairs.value| > 0 && |q.pairs.value| > 0
    requires p.pairs.value[0] == q.pairs.value[0]
    ensures Normalise(address, p) == Normalise(address, q)
  {
  }

  /** On success the name and symbol are copied from the first pair, the address falls
      back to the queried one, and every missing or falsy figure takes its default. */
  lemma NormaliseDefaults(address: string, p: Payload)
    requires Normalise(address, p).Some?
    ensures var d, pair := Normalise(address, p).value, p.pairs.value[0];
      && d.baseToken.name == pair.baseToken.value.name.value
      && d.baseToken.symbol == pair.baseToken.value.symbol.value
      && (Truthy(pair.baseToken.value.address) ==> d.baseToken.address == pair.baseToken.value.address.value)
      && (!Truthy(pair.baseToken.value.address) ==> d.baseToken.address == address)
      && (pair.priceUsd in {None, Some("")} ==> d.priceUsd == "0")
      && (Truthy(pair.priceUsd) ==> d.priceUsd == pair.priceUsd.value)
      && (pair.priceChange.None? || pair.priceChange.value.h24.None? ==> d.priceChange.h24 == 0.0)
      && (pair.priceChange.Some? && pair.priceChange.value.h24.Some? ==>
            d.priceChange.h24 == pair.priceChange.value.h24.value)
      && (pair.volume.None? ==> d.volume == Volume(0.0, 0.0, 0.0, 0.0))
      && (pair.volume.Some? ==>
            var v := pair.volume.value;
            && (v.h24.None? ==> d.volume.h24 == 0.0) && (v.h24.Some? ==> d.volume.h24 == v.h24.value)
            && (v.h6.None? ==> d.volume.h6 == 0.0) && (v.h6.Some? ==> d.volume.h6 == v.h6.value)
            && (v.h1.None? ==> d.volume.h1 == 0.0) && (v.h1.Some? ==> d.volume.h1 == v.h1.value)
            && (v.m5.None? ==> d.volume.m5 == 0.0) && (v.m5.Some? ==> d.volume.m5 == v.m5.value))
      && (pair.marketCap.None? ==> d.marketCap == 0.0)
      && (pair.marketCap.Some? ==> d.marketCap == pair.marketCap.value)
      && (pair.txns.None? ==> d.txns == Txns(TxnCounts(0.0, 0.0), TxnCounts(0.0, 0.0),
                                             TxnCounts(0.0, 0.0), TxnCounts(0.0, 0.0)))
      && (pair.txns.Some? ==>
            var x := pair.txns.value;
            && (x.h24.None? ==> d.txns.h24 == TxnCounts(0.0, 0.0)) && (x.h24.Some? ==> d.txns.h24 == x.h24.value)
            && (x.h6.None? ==> d.txns.h6 == TxnCounts(0.0, 0.0)) && (x.h6.Some? ==> d.txns.h6 == x.h6.value)
            && (x.h1.None? ==> d.txns.h1 == TxnCounts(0.0, 0.0)) && (x.h1.Some? ==> d.txns.h1 == x.h1.value)
            && (x.m5.None? ==> d.txns.m5 == TxnCounts(0.0, 0.0)) && (x.m5.Some? ==> d.txns.m5 == x.m5.value))
      && (pair.info.None? ==> d.info.imageUrl.None? && d.info.header.None?)
      && (pair.info.Some? ==>
            && (Truthy(pair.info.value.imageUrl) ==> d.info.imageUrl == pair.info.value.imageUrl)
            && (pair.info.value.imageUrl in {None, Some("")} ==> d.info.imageUrl.None?)
            && (Truthy(pair.info.value.header) ==> d.info.header == pair.info.value.header)
            && (pair.info.value.header in {None, Some("")} ==> d.info.header.None?))
      && d.info.socials == SocialsOf(pair.info)
  {
  }

  /** Every result is in normal form. */
  lemma NormaliseIsNormal(address: string, p: Payload)
    requires Normalise(address, p).Some?
    ensures NormalForm(Normalise(address, p).value)
  {
  }

  /** Looking up the last entry of a type in a concatenation looks in the later part first. */
  lemma {:induction false} LastOfKindAppend(a: seq<RawSocial>, b: seq<RawSocial>, kind: string)
    ensures LastOfKind(a + b, kind) == OrElse(LastOfKind(b, kind), LastOfKind(a, kind))
  {
    if b == [] {
      assert a + b == a;
    } else {
      var init := b[..|b| - 1];
      assert (a + b)[..|a + b| - 1] == a + init;
      LastOfKindAppend(a, init, kind);
    }
  }

  /** `LastOfKind` finds exactly the last entry of the given type, and finds nothing when
      no entry has that type. */
  lemma {:induction false} LastOfKindSpec(list: seq<RawSocial>, kind: string)
    ensures LastOfKind(list, kind).None? <==> forall i :: 0 <= i < |list| ==> list[i].kind != kind
    ensures LastOfKind(list, kind).Some? ==>
              exists i :: 0 <= i < |list| && list[i].kind == kind
                          && list[i].url == LastOfKind(list, kind).value
                          && forall j :: i < j < |list| ==> list[j].kind != kind
  {
    if list != [] {
      var init := list[..|list| - 1];
      LastOfKindSpec(init, kind);
      if list[|list| - 1].kind != kind {
        if LastOfKind(init, kind).Some? {
          var i :| 0 <= i < |init| && init[i].kind == kind && init[i].url == LastOfKind(init, kind).value
                   && forall j :: i < j < |init| ==> init[j].kind != kind;
          assert list[i] == init[i];
        }
      }
    }
  }

  /** A `website`-typed social entry overrides `websites[0]`; without one, `websites[0]`
      stands. Entries of other types never touch the table. */
  lemma SocialsWebsite(info: RawInfo)
    ensures info.socials.Some? && LastOfKind(info.socials.value, "website").Some? ==>
              SocialsOf(Some(info)).website == LastOfKind(info.socials.value, "website")
    ensures (info.socials.None? || LastOfKind(info.socials.value, "website").None?) ==>
              SocialsOf(Some(info)).website
                == (if info.websites.Some? && |info.websites.value| > 0
                    then Some(info.websites.value[0]) else None)
  {
  }

  /** An entry of a type outside the four keys leaves the table as it was. */
  lemma {:induction false} UnknownKindIgnored(base: Socials, list: seq<RawSocial>, extra: RawSocial)
    requires extra.kind !in {"website", "twitter", "telegram", "discord"}
    ensures Overlay(base, list + [extra]) == Overlay(base, list)
  {
    var l := list + [extra];
    assert l[..|l| - 1] == list;
  }

  /** Replaying the typed entries of a table rebuilds that table. */
  lemma {:induction false} SocialListRoundTrip(s: Socials)
    ensures SocialsOf(Some(RawInfo(None, None, None, Some(SocialList(s))))) == s
  {
    var w := if s.website.Some? then [RawSocial("website", s.website.value)] else [];
    var t := if s.twitter.Some? then [RawSocial("twitter", s.twitter.value)] else [];
    var g := if s.telegram.Some? then [RawSocial("telegram", s.telegram.value)] else [];
    var c := if s.discord.Some? then [RawSocial("discord", s.discord.value)] else [];
    var list := SocialList(s);
    assert list == w + t + g + c;
    LastOfKindAppend(w + t + g, c, "website");
    LastOfKindAppend(w + t, g, "website");
    LastOfKindAppend(w, t, "website");
    LastOfKindAppend(w + t + g, c, "twitter");
    LastOfKindAppend(w + t, g, "twitter");
    LastOfKindAppend(w, t, "twitter");
    LastOfKindAppend(w + t + g, c, "telegram");
    LastOfKindAppend(w + t, g, "telegram");
    LastOfKindAppend(w, t, "telegram");
    LastOfKindAppend(w + t + g, c, "discord");
    LastOfKindAppend(w + t, g, "discord");
    LastOfKindAppend(w, t, "discord");
  }

  /** Normalising the encoding of a record in normal form gives the record back, so
      normalisation is idempotent on its own results. */
  lemma NormaliseEncode(d: TokenData)
    requires NormalForm(d)
    ensures Normalise(d.baseToken.address, Encode(d)) == Some(d)
  {
    var info := RawInfo(d.info.imageUrl, d.info.header, None, Some(SocialList(d.info.socials)));
    SocialListRoundTrip(d.info.socials);
    assert SocialsOf(Some(info)) == d.info.socials;
  }
}
