/** The request middleware: CORS headers on `/api/` routes and the answer to their preflight requests. */
module Middleware {
  import Text

  const AllowOrigin: string := "Access-Control-Allow-Origin"
  const AllowMethods: string := "Access-Control-Allow-Methods"
  const AllowHeaders: string := "Access-Control-Allow-Headers"

  /** The three headers with the values the middleware sets. */
  const CorsHeaders: map<string, string> := map[
    AllowOrigin := "*",
    AllowMethods := "GET, POST, PUT, DELETE, OPTIONS",
    AllowHeaders := "Content-Type, Authorization"]

  /** What the middleware returns: pass the request on with extra response headers, or answer it. */
  datatype Outcome = Next(headers: map<string, string>) | Respond(status: int, headers: map<string, string>)

  /**
   * `middleware(request)` for the request's path and method. The headers are
   * set one by one on the response, as the source does.
   */
  method Handle(path: string, httpMethod: string) returns (outcome: Outcome)
    ensures Text.StartsWith(path, "/api/") && httpMethod == "OPTIONS" ==> outcome == Respond(200, CorsHeaders)
    ensures Text.StartsWith(path, "/api/") && httpMethod != "OPTIONS" ==> outcome == Next(CorsHeaders)
    ensures !Text.StartsWith(path, "/api/") ==> outcome == Next(map[])
  {
    if Text.StartsWith(path, "/api/") {
      var headers: map<string, string> := map[];
      headers := headers[AllowOrigin := "*"];
      headers := headers[AllowMethods := "GET, POST, PUT, DELETE, OPTIONS"];
      headers := headers[AllowHeaders := "Content-Type, Authorization"];
      if httpMethod == "OPTIONS" {
        return Respond(200, headers);
      }
      return Next(headers);
    }
    return Next(map[]);
  }

  /** `/api` itself, without the trailing slash, is not an API path. */
  lemma BareApiIsNotApi()
    ensures !Text.StartsWith("/api", "/api/")
    ensures Text.StartsWith("/api/users", "/api/")
  {
    assert "/api/users"[..5] == "/api/";
  }
}
