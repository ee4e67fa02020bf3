/** The signed credential pair every call to the recognition service carries.

    The signature is the base64 text of HMAC-SHA1, keyed with the secret key, of the
    hex MD5 digest of `appid + ts`. The digest chain is foreign code, so the model
    takes it as a parameter `sign`: any deterministic function of
    `(appid, secret key, timestamp)`. The clock reading that yields `ts` is a
    parameter too. */
module RequestBodyXF {

  /** The signing function: `(appid, secretKey, ts) -> signa`. */
  type Signer = (string, string, string) -> string

  /** The request body: the application id, the secret key (never sent), the
      signature and the timestamp it was derived from. */
  datatype RequestBody = RequestBody(appid: string, secretKey: string, signa: string, ts: string)

  /** The stored signature is the one derived from the stored timestamp. */
  predicate Signed(sign: Signer, rb: RequestBody) {
    rb.signa == sign(rb.appid, rb.secretKey, rb.ts)
  }

  /** `RequestBodyXF.make`: reads the clock once (`ts`) and signs with that reading. */
  function Make(sign: Signer, appid: string, secretKey: string, ts: string): (rb: RequestBody)
    ensures Signed(sign, rb)
    ensures rb.appid == appid && rb.secretKey == secretKey && rb.ts == ts
  {
    RequestBody(appid, secretKey, sign(appid, secretKey, ts), ts)
  }

  /** `RequestBodyXF.fresh`: replaces the timestamp and re-signs, keeping the
      credentials. */
  function Fresh(sign: Signer, rb: RequestBody, ts: string): (rb': RequestBody)
    ensures Signed(sign, rb')
    ensures rb'.appid == rb.appid && rb'.secretKey == rb.secretKey && rb'.ts == ts
  {
    rb.(ts := ts, signa := sign(rb.appid, rb.secretKey, ts))
  }

  /** Refreshing gives the body `make` would have built at that timestamp, whatever
      state the body was in before; in particular it repairs a body whose pair had
      been broken. */
  lemma FreshIsMake(sign: Signer, rb: RequestBody, ts: string)
    ensures Fresh(sign, rb, ts) == Make(sign, rb.appid, rb.secretKey, ts)
  {
  }
}
