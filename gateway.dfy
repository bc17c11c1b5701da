/** What the three payment handlers share: their configuration, the provider's hosts and
    paths, the request signature and the shape of the HTTP responses they send. */
module Gateway {
  import opened Wrappers

  /** The environment variables the handlers read; `None` is an unset variable. */
  datatype Env = Env(
    merchantId: Option<string>,
    secret: Option<string>,
    nodeEnv: Option<string>,
    appUrl: Option<string>,
    supabaseUrl: Option<string>,
    serviceKey: Option<string>)

  /** A string value that JavaScript treats as true: present and non-empty. */
  predicate Truthy(v: Option<string>) {
    v.Some? && v.value != ""
  }

  const ProductionBaseUrl: string := "https://api.phonepe.com/apis/hermes"
  const SandboxBaseUrl: string := "https://api-preprod.phonepe.com/apis/pg-sandbox"
  const PayPath: string := "/pg/v1/pay"
  const StatusPath: string := "/pg/v1/status"
  const SaltIndexSuffix: string := "###1"

  /** The provider host: production exactly when `NODE_ENV` is `production`. */
  function BaseUrl(nodeEnv: Option<string>): (url: string)
    ensures url == ProductionBaseUrl <==> nodeEnv == Some("production")
    ensures url != ProductionBaseUrl ==> url == SandboxBaseUrl
  {
    if nodeEnv == Some("production") then ProductionBaseUrl else SandboxBaseUrl
  }

  /** The `X-VERIFY` value for a signed string: its SHA-256 digest in hexadecimal followed by
      the salt index. The digest function is a parameter, since the model does not compute
      SHA-256. */
  function Checksum(sha256Hex: string -> string, signed: string): (c: string)
    ensures |c| >= |SaltIndexSuffix| && c[|c| - |SaltIndexSuffix|..] == SaltIndexSuffix
    ensures c[..|c| - |SaltIndexSuffix|] == sha256Hex(signed)
  {
    sha256Hex(signed) + SaltIndexSuffix
  }

  /** Two checksums are equal exactly when the digests they carry are. */
  lemma ChecksumInjective(sha256Hex: string -> string, a: string, b: string)
    ensures Checksum(sha256Hex, a) == Checksum(sha256Hex, b) <==> sha256Hex(a) == sha256Hex(b)
  {
    var ca, cb := Checksum(sha256Hex, a), Checksum(sha256Hex, b);
    if ca == cb {
      assert ca[..|ca| - |SaltIndexSuffix|] == cb[..|cb| - |SaltIndexSuffix|];
    }
  }

  /** The JSON bodies the handlers answer with. */
  datatype Body =
    | ErrorBody(error: string)                       // { error }
    | StatusError(message: string)                   // { status: 'error', message }
    | PaymentInitiated(paymentUrl: string, paymentId: string, message: string)
    | StatusReport(data: string)                     // { status: 'success', data }
    | Processed(message: string)                     // { success: true, message }

  datatype Response = Response(code: int, body: Body)

  const MethodNotAllowed: Response := Response(405, ErrorBody("Method not allowed"))
}
