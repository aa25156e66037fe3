/** Request helpers of the Shortmax server (app.js): the public base URL behind a proxy, the
    page metadata every page renders, and the log preview of an upstream body. */
module ShortmaxSite {
  import opened Js

  const SiteName := "PanStream"
  const SiteTagline := "Luxury streaming experience"
  const DefaultDescription := "PanStream — pengalaman streaming mewah, cepat, dan responsif."

  /** The parts of an Express request these helpers read. A header value is a string; an absent
      header is "" (both are falsy, and the code treats them alike). */
  datatype Request = Request(forwardedProto: string, protocol: string, forwardedHost: string, host: string, path: string)

  /** `(a || b || dflt)` over strings. */
  function FirstNonEmpty(a: string, b: string, dflt: string): (s: string)
    ensures a != "" ==> s == a
    ensures a == "" && b != "" ==> s == b
    ensures a == "" && b == "" ==> s == dflt
  {
    if a != "" then a else if b != "" then b else dflt
  }

  /** `.split(",")[0].trim()`: the first hop of a comma-separated proxy header. */
  function FirstHop(v: string): (s: string)
    ensures ',' !in s
    ensures s == [] || (!IsSpace(s[0]) && !IsSpace(s[|s| - 1]))
  {
    var h := BeforeFirst(v, ',');
    var t := Trim(h);
    TrimIsInfix(h);
    t
  }

  lemma TrimIsInfix(s: string)
    ensures forall c :: c in Trim(s) ==> c in s
  {
    var t := TrimStart(s);
    assert forall c :: c in t ==> c in s;
    assert forall c :: c in TrimEnd(t) ==> c in t;
  }

  /** When several proxies appended to a header, only the first value counts. */
  lemma {:induction false} FirstHopOfList(a: string, rest: string)
    requires ',' !in a
    ensures FirstHop(a + "," + rest) == Trim(a)
  {
    BeforeFirstOfList(a, rest);
  }

  lemma {:induction false} BeforeFirstOfList(a: string, rest: string)
    requires ',' !in a
    ensures BeforeFirst(a + "," + rest, ',') == a
  {
    if a != [] {
      assert (a + "," + rest)[1..] == a[1..] + "," + rest;
      BeforeFirstOfList(a[1..], rest);
    }
  }

  function Proto(req: Request): string {
    FirstHop(FirstNonEmpty(req.forwardedProto, req.protocol, "http"))
  }

  function Host(req: Request): string {
    FirstHop(FirstNonEmpty(req.forwardedHost, req.host, ""))
  }

  /** getBaseUrl: `proto://host`, from the first hop of each proxy header. */
  function BaseUrl(req: Request): (u: string)
    ensures StartsWith(u, Proto(req) + "://") && ',' !in Proto(req) && ',' !in Host(req)
    ensures u[|Proto(req)| + 3..] == Host(req)
  {
    Proto(req) + "://" + Host(req)
  }

  /** The scheme comes from X-Forwarded-Proto when a proxy sent one, else from the connection,
      else it is "http"; a header naming several hops contributes only its first, trimmed. */
  lemma {:induction false} BaseUrlScheme(req: Request)
    ensures req.forwardedProto == "" && req.protocol == "" ==> Proto(req) == "http"
    ensures req.forwardedProto != "" && ',' !in req.forwardedProto ==> Proto(req) == Trim(req.forwardedProto)
    ensures req.forwardedProto == "" && req.protocol != "" && ',' !in req.protocol ==> Proto(req) == Trim(req.protocol)
  {
    if req.forwardedProto != "" {
      if ',' !in req.forwardedProto {
        FirstHopWithout(req.forwardedProto);
      }
    } else if req.protocol != "" {
      if ',' !in req.protocol {
        FirstHopWithout(req.protocol);
      }
    } else {
      DefaultScheme();
    }
  }

  lemma DefaultScheme()
    ensures FirstHop("http") == "http"
  {
    var h := "http";
    assert h[0] == 'h' && h[1..] == "ttp";
    assert h[3] == 'p';
    BeforeFirstWithout(h);
    TrimOfNoSpace(h);
  }

  /** The host comes from X-Forwarded-Host when a proxy sent one, else from the Host header,
      else it is empty; only the first hop of a list counts. */
  lemma {:induction false} BaseUrlHost(req: Request)
    ensures req.forwardedHost == "" && req.host == "" ==> Host(req) == ""
    ensures req.forwardedHost != "" && ',' !in req.forwardedHost ==> Host(req) == Trim(req.forwardedHost)
    ensures req.forwardedHost == "" && req.host != "" && ',' !in req.host ==> Host(req) == Trim(req.host)
    ensures req.forwardedHost != "" && ',' !in req.forwardedHost ==>
              forall rest :: FirstHop(req.forwardedHost + "," + rest) == Host(req)
  {
    if req.forwardedHost != "" {
      if ',' !in req.forwardedHost {
        FirstHopWithout(req.forwardedHost);
        forall rest
          ensures FirstHop(req.forwardedHost + "," + rest) == Host(req)
        {
          FirstHopOfList(req.forwardedHost, rest);
        }
      }
    } else if req.host != "" {
      if ',' !in req.host {
        FirstHopWithout(req.host);
      }
    } else {
      FirstHopWithout("");
    }
  }

  lemma {:induction false} FirstHopWithout(s: string)
    requires ',' !in s
    ensures FirstHop(s) == Trim(s)
  {
    BeforeFirstWithout(s);
  }

  lemma {:induction false} BeforeFirstWithout(s: string)
    requires ',' !in s
    ensures BeforeFirst(s, ',') == s
  {
    if s != [] {
      BeforeFirstWithout(s[1..]);
    }
  }

  /** The options a page passes to baseMeta; "" stands for an absent option. */
  datatype MetaOptions = MetaOptions(title: string, description: string, path: string, image: string, jsonLd: Value)

  datatype Meta = Meta(siteName: string, tagline: string, title: string, description: string, url: string, image: string, jsonLd: Value)

  /** baseMeta: the title gets the site name appended, or is the site's own title; the URL is
      the base URL followed by the page's path, else the request path, else "/"; the image
      defaults to the site's Open Graph image. */
  function BaseMeta(req: Request, opts: MetaOptions): (m: Meta)
    ensures m.siteName == SiteName && m.tagline == SiteTagline
    ensures opts.title != "" ==> m.title == opts.title + " • " + SiteName
    ensures opts.title == "" ==> m.title == SiteName + " • " + SiteTagline
    ensures opts.description != "" ==> m.description == opts.description
    ensures opts.description == "" ==> m.description == DefaultDescription
    ensures m.url == BaseUrl(req) + FirstNonEmpty(opts.path, req.path, "/")
    ensures opts.image != "" ==> m.image == opts.image
    ensures opts.image == "" ==> m.image == BaseUrl(req) + "/public/img/og.png"
    ensures Truthy(opts.jsonLd) ==> m.jsonLd == opts.jsonLd
    ensures !Truthy(opts.jsonLd) ==> m.jsonLd == Null
  {
    var baseUrl := BaseUrl(req);
    Meta(
      siteName := SiteName,
      tagline := SiteTagline,
      title := if opts.title != "" then opts.title + " • " + SiteName else SiteName + " • " + SiteTagline,
      description := if opts.description != "" then opts.description else DefaultDescription,
      url := baseUrl + FirstNonEmpty(opts.path, req.path, "/"),
      image := if opts.image != "" then opts.image else baseUrl + "/public/img/og.png",
      jsonLd := Or(opts.jsonLd, Null))
  }

  /** previewBody on a string body: its first 240 characters. */
  function PreviewBody(data: string): (r: string)
    ensures |r| <= 240 && |r| <= |data|
    ensures r == data[..|r|]
    ensures |data| <= 240 ==> r == data
    ensures |data| > 240 ==> |r| == 240
  {
    if |data| <= 240 then data else data[..240]
  }
}
