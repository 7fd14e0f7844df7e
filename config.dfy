/** The configuration block compiled into the updater (ddns-cloudflare.py:11-15). */
module Config {

  /** The parent zone whose record is kept in sync. */
  const ZONE: string := "cloudflare.com"

  /** The sub-domain label of the managed record. */
  const RECORD: string := "api"

  /** The fully qualified managed host name, `RECORD.ZONE`. */
  const DOMAIN: string := RECORD + "." + ZONE
}
