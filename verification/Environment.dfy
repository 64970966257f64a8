// The libraries the program calls and this model does not open: JSON text,
// base64, URL parsing, hashing and path cleaning, as unknown functions.
module Environment {
  import opened Wrappers
  import opened Json
  import opened Text

  datatype UserInfo = UserInfo(name: string, password: Option<string>)

  // net/url.URL, with Hostname(), Port() and Query() already applied.
  datatype Url = Url(
    scheme: string, hostname: string, port: string, host: string, opaqueText: string,
    user: Option<UserInfo>, fragment: string, query: map<string, string>)

  datatype Env = Env(
    encode: Json -> string,                     // json.Marshal
    decode: string -> Option<Json>,             // json.Unmarshal into any
    base64: string -> Option<string>,           // decodeBase64, its four encodings and its filter
    secret: string -> Option<string>,           // the two encodings of shadowsocksCredentials
    url: string -> Option<Url>,                 // url.Parse
    atoi: string -> Option<int>,                // strconv.Atoi
    formatNumber: (int, nat) -> string,         // strconv.FormatFloat
    display: (string, string, int) -> string,   // displayName
    serverId: (string, string) -> string,       // stableServerID
    clean: string -> string)                    // filepath.Clean
  {
    // What encoding/json promises of its own output.
    ghost predicate JsonRoundTrips() {
      && (forall j :: decode(encode(j)) == Some(j) && encode(j) != "")
      && (forall o: Fields :: HasPrefix(encode(Object(o)), "{"))
    }

    // The truncated SHA-256 of stableServerID has no collision.
    ghost predicate IdsCollisionFree() {
      forall p, i, q, j :: serverId(p, i) == serverId(q, j) ==> p == q && i == j
    }
  }
}
