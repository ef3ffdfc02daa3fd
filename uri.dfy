/**
 * The resource locator used to address sync targets: a string `data` of the
 * form `proto://[user@]host[:port]/path` or scp-like `[user@]host:path`,
 * and the fields `parse` decomposes it into.
 */
module Locator {
  import opened Results
  import opened Text

  /** The fields `parse` assigns for remote data. */
  datatype Remote = Remote(protocol: string, data: string, user: string, host: string, port: string, path: string)

  /**
   * The protocol, the data left once `proto://` is cut off, and the
   * delimiter between host and path: `/` after `proto://`, else `:` with
   * protocol `ssh`.
   */
  function Scheme(data: string): (string, string, char)
  {
    match FindSub(data, "://")
    case Some(i) => (data[..i], data[i + 3..], '/')
    case None => ("ssh", data, ':')
  }

  function ParseFailure(rest: string): string {
    "Could not parse \"" + rest + "\""
  }

  /** The host segment after its first `@`, or all of it when it has none. */
  function HostPort(segment: string): string
  {
    match Find(segment, '@')
    case Some(at) => segment[at + 1..]
    case None => segment
  }

  /**
   * The host segment `[user@]host[:port]` split into user, host and port:
   * the user ends at the first `@`, the port starts after the first `:` of
   * what remains; a missing part is `""`.
   */
  function HostParts(segment: string): (string, string, string)
  {
    var at := Find(segment, '@');
    var user := if at.Some? then segment[..at.value] else "";
    var hostPort := HostPort(segment);
    var colon := Find(hostPort, ':');
    if colon.Some? then (user, hostPort[..colon.value], hostPort[colon.value + 1..])
    else (user, hostPort, "")
  }

  /** What `parse` computes from non-local data, or the message it throws. */
  function ParseRemote(data: string): Result<Remote, string>
  {
    var scheme := Scheme(data);
    var rest := scheme.1;
    match Find(rest, scheme.2)
    case None => Err(ParseFailure(rest))
    case Some(split) =>
      var parts := HostParts(rest[..split]);
      Ok(Remote(scheme.0, rest, parts.0, parts.1, parts.2, rest[split + 1..]))
  }

  /**
   * The host segment is rebuilt from its parts: `[user@]host[:port]`, with
   * no `@` in the user and no `:` in the host; a segment without `:` has an
   * empty port.
   */
  lemma HostPartsReassemble(segment: string)
    ensures '@' in segment ==> segment == HostParts(segment).0 + "@" + HostPort(segment)
    ensures '@' !in segment ==> segment == HostPort(segment) && HostParts(segment).0 == ""
    ensures ':' in HostPort(segment) ==> HostPort(segment) == HostParts(segment).1 + ":" + HostParts(segment).2
    ensures ':' !in HostPort(segment) ==> HostPort(segment) == HostParts(segment).1 && HostParts(segment).2 == ""
  {
    if '@' in segment {
      UserSplit(segment);
    }
    if ':' in HostPort(segment) {
      PortSplit(segment, HostPort(segment));
    }
  }

  /** With an `@`, the segment is the user, the `@`, and the rest. */
  lemma UserSplit(segment: string)
    requires '@' in segment
    ensures segment == HostParts(segment).0 + "@" + HostPort(segment)
  {
    SplitAround(segment, Find(segment, '@').value);
  }

  /** With a `:` after the user, the rest is the host, the `:`, and the port. */
  lemma PortSplit(segment: string, hostPort: string)
    requires hostPort == HostPort(segment) && ':' in hostPort
    ensures hostPort == HostParts(segment).1 + ":" + HostParts(segment).2
  {
    SplitAround(hostPort, Find(hostPort, ':').value);
  }

  /** The user has no `@` and the host no `:`; a segment without `:` has an empty port. */
  lemma HostPartsSeparated(segment: string)
    ensures '@' !in HostParts(segment).0 && ':' !in HostParts(segment).1
    ensures ':' !in segment ==> HostParts(segment).2 == ""
  {
    var at := Find(segment, '@');
    if at.Some? && ':' !in segment {
      SuffixWithout(segment, at.value + 1, ':');
    }
  }

  /** `s` is what precedes index `i`, the character at `i`, and what follows it. */
  lemma SplitAround(s: string, i: nat)
    requires i < |s|
    ensures s == s[..i] + [s[i]] + s[i + 1..]
  {
  }

  /** A suffix of `s` has no character that `s` lacks. */
  lemma SuffixWithout(s: string, i: nat, c: char)
    requires i <= |s| && c !in s
    ensures c !in s[i..]
  {
  }

  /** A character absent from the host segment is absent from its user and its host. */
  lemma HostPartsWithout(segment: string, c: char)
    requires c !in segment
    ensures c !in HostParts(segment).0 && c !in HostParts(segment).1
  {
    HostPartsReassemble(segment);
  }

  /** The host segment `[user@]host[:port]` written back from its parts. */
  function HostSegmentText(user: string, host: string, port: string, withUser: bool, withPort: bool): string
  {
    (if withUser then user + "@" else "") + host + (if withPort then ":" + port else "")
  }

  /** Splitting the host segment and writing it back gives the segment again. */
  lemma {:induction false} HostPartsRoundTrip(segment: string)
    ensures var parts := HostParts(segment);
      segment == HostSegmentText(parts.0, parts.1, parts.2, '@' in segment, ':' in HostPort(segment))
  {
    var parts := HostParts(segment);
    HostPartsReassemble(segment);
    SegmentFromParts(segment, parts.0, HostPort(segment), parts.1, parts.2, '@' in segment, ':' in HostPort(segment));
  }

  /** A segment made of a user, `@` and a host-port part, which is a host, `:` and a port, is their written form. */
  lemma SegmentFromParts(segment: string, user: string, hostPort: string, host: string, port: string, withUser: bool, withPort: bool)
    requires segment == if withUser then user + "@" + hostPort else hostPort
    requires hostPort == if withPort then host + ":" + port else host
    ensures segment == HostSegmentText(user, host, port, withUser, withPort)
  {
    if withUser {
      assert segment == user + "@" + hostPort;
    }
  }

  /**
   * A successful parse takes the data apart without losing anything: the
   * data is `[user@]host[:port]` then the delimiter then the path, and the
   * user has no `@`, the host no `:`, and neither holds the delimiter.
   */
  lemma ParseRemoteReassembles(data: string, v: Remote)
    requires ParseRemote(data) == Ok(v)
    ensures v.data == Scheme(data).1
    ensures exists withUser: bool, withPort: bool ::
      v.data == HostSegmentText(v.user, v.host, v.port, withUser, withPort) + [Scheme(data).2] + v.path
    ensures '@' !in v.user && ':' !in v.host && Scheme(data).2 !in v.user && Scheme(data).2 !in v.host
  {
    var scheme := Scheme(data);
    var split := Find(scheme.1, scheme.2).value;
    var segment := scheme.1[..split];
    SplitAround(scheme.1, split);
    HostPartsSeparated(segment);
    HostPartsWithout(segment, scheme.2);
    HostPartsRoundTrip(segment);
    var withUser, withPort := '@' in segment, ':' in HostPort(segment);
    assert v.data == HostSegmentText(v.user, v.host, v.port, withUser, withPort) + [scheme.2] + v.path;
  }

  /**
   * In the scp-like form the host segment ends at the first `:`, so the port
   * is always empty and the protocol is `ssh`.
   */
  lemma ScpHasNoPort(data: string)
    requires FindSub(data, "://").None? && ParseRemote(data).Ok?
    ensures ParseRemote(data).value.protocol == "ssh" && ParseRemote(data).value.port == ""
  {
    HostPartsSeparated(data[..Find(data, ':').value]);
  }

  /**
   * On data that is not local, `parse` throws exactly when the data has a
   * `proto://` and no `/` after it: scp-like data always has its `:`.
   */
  lemma ParseFailsOnlyWithoutPath(data: string)
    requires ':' in data
    ensures ParseRemote(data).Err? <==> FindSub(data, "://").Some? && '/' !in Scheme(data).1
  {
  }

  /**
   * The first step of `parse` on remote data: cut off `proto://` and split
   * the rest at `/`, or take the scp-like form with protocol `ssh` and split
   * at `:`.
   */
  method SplitScheme(data: string) returns (protocol: string, rest: string, delimiter: char)
    ensures (protocol, rest, delimiter) == Scheme(data)
    ensures delimiter == '/' ==> data == protocol + "://" + rest
    ensures delimiter == ':' ==> protocol == "ssh" && rest == data
  {
    rest := data;
    var pos := FindSub(rest, "://");
    if pos.Some? {
      protocol := rest[..pos.value];
      rest := rest[pos.value + 3..];
      delimiter := '/';
      assert data == data[..pos.value] + data[pos.value..pos.value + 3] + data[pos.value + 3..];
    } else {
      protocol := "ssh";
      delimiter := ':';
    }
  }

  /** The last step of `parse`: take the user off before the first `@`, then the port off after the first `:`. */
  method SplitHost(segment: string) returns (user: string, host: string, port: string)
    ensures (user, host, port) == HostParts(segment)
    ensures '@' !in user && ':' !in host
  {
    user, host, port := "", segment, "";
    var at := Find(host, '@');
    if at.Some? {
      user := host[..at.value];
      host := host[at.value + 1..];
    }
    var colon := Find(host, ':');
    if colon.Some? {
      port := host[colon.value + 1..];
      host := host[..colon.value];
    }
  }

  class Uri {
    var data: string
    var host: string
    var path: string
    var user: string
    var port: string
    var protocol: string

    /** Default construction: every field empty. */
    constructor ()
      ensures data == "" && host == "" && path == "" && user == "" && port == "" && protocol == ""
    {
      data, host, path, user, port, protocol := "", "", "", "", "", "";
    }

    /** Copy construction: every field taken from `other`. */
    constructor Copy(other: Uri)
      ensures data == other.data && host == other.host && path == other.path
      ensures user == other.user && port == other.port && protocol == other.protocol
    {
      data := other.data;
      host := other.host;
      path := other.path;
      user := other.user;
      port := other.port;
      protocol := other.protocol;
    }

    /** Assignment: every field taken from `other`; assigning an object to itself changes nothing. */
    method Assign(other: Uri)
      modifies this
      ensures data == old(other.data) && host == old(other.host) && path == old(other.path)
      ensures user == old(other.user) && port == old(other.port) && protocol == old(other.protocol)
    {
      if this != other {
        data := other.data;
        host := other.host;
        path := other.path;
        user := other.user;
        port := other.port;
        protocol := other.protocol;
      }
    }

    /** Conversion to `std::string`: the raw data. */
    function AsString(): string
      reads this
    {
      data
    }

    /** The last component of the path: the longest suffix without `/`. */
    function Name(): (r: string)
      reads this
      ensures |r| <= |path| && r == path[|path| - |r|..] && '/' !in r
      ensures '/' in path ==> |r| < |path| && path[|path| - |r| - 1] == '/'
      ensures '/' !in path ==> r == path
    {
      if |path| > 0 then
        match RFind(path, '/')
        case Some(slash) => path[slash + 1..]
        case None => path
      else path
    }

    /** Everything before the last `/` of the path, or `""` when it has none. */
    function Parent(): (r: string)
      reads this
      ensures '/' !in path ==> r == ""
      ensures '/' in path ==> r + "/" + Name() == path
    {
      if |path| > 0 then
        match RFind(path, '/')
        case Some(slash) =>
          assert path == path[..slash] + "/" + path[slash + 1..];
          path[..slash]
        case None => ""
      else ""
    }

    /** What follows the last `.` anywhere in the path, or `""` when it has none. */
    function Extension(): (r: string)
      reads this
      ensures |r| <= |path| && r == path[|path| - |r|..] && '.' !in r
      ensures '.' in path ==> |r| < |path| && path[|path| - |r| - 1] == '.'
      ensures '.' !in path ==> r == ""
    {
      if |path| > 0 then
        match RFind(path, '.')
        case Some(dot) => path[dot + 1..]
        case None => ""
      else ""
    }

    /**
     * The path names a directory: `.`, empty, or ending in `/`; that is,
     * `.` or a path whose last component is empty.
     */
    function IsDirectory(): (r: bool)
      reads this
      ensures r <==> path == "." || Name() == ""
    {
      assert path != "" && path[|path| - 1] == '/' ==> '/' in path;
      path == "." || path == "" || path[|path| - 1] == '/'
    }

    /** The data has neither `://` nor `:`; since `://` holds a `:`, it has no `:` at all. */
    function IsLocal(): (r: bool)
      reads this
      ensures r <==> ':' !in data
    {
      var scheme := FindSub(data, "://");
      assert scheme.Some? ==> data[scheme.value] == data[scheme.value..scheme.value + 3][0];
      scheme.None? && Find(data, ':').None?
    }

    /** Appends `p` to the path when the path is a directory, and says whether it did. */
    method Append(p: string) returns (ok: bool)
      modifies this`path
      ensures ok == old(IsDirectory())
      ensures path == if ok then old(path) + p else old(path)
    {
      if IsDirectory() {
        path := path + p;
        return true;
      } else {
        return false;
      }
    }

    /**
     * Splits the data into its fields. Local data becomes the path and
     * nothing else changes. Otherwise user and port are reset, the protocol
     * and the remaining data are set, and either host, path, user and port
     * are filled in or the error message is returned (`throw`), the fields
     * assigned before the throw keeping their new values.
     */
    method Parse() returns (err: Option<string>)
      modifies this
      ensures old(IsLocal()) ==>
        err == None && path == old(data) && data == old(data) && host == old(host) &&
        user == old(user) && port == old(port) && protocol == old(protocol)
      ensures !old(IsLocal()) && ParseRemote(old(data)).Ok? ==>
        var v := ParseRemote(old(data)).value;
        err == None && protocol == v.protocol && data == v.data && user == v.user &&
        host == v.host && port == v.port && path == v.path
      ensures !old(IsLocal()) && ParseRemote(old(data)).Err? ==>
        err == Some(ParseRemote(old(data)).error) &&
        protocol == Scheme(old(data)).0 && data == Scheme(old(data)).1 &&
        user == "" && port == "" && host == old(host) && path == old(path)
    {
      if IsLocal() {
        path := data;
        return None;
      }

      user := "";
      port := "";

      var scheme, rest, delimiter := SplitScheme(data);
      protocol := scheme;
      data := rest;

      var split := Find(rest, delimiter);
      if split.None? {
        return Some("Could not parse \"" + rest + "\"");
      }
      host := rest[..split.value];
      path := rest[split.value + 1..];

      var segmentUser, segmentHost, segmentPort := SplitHost(host);
      user, host, port := segmentUser, segmentHost, segmentPort;
      err := None;
    }
  }
}
