/** The values of the regulatory engine (rtw_chplan.c, rtw_chplan.h). */
module RegdTypes {

  const SRC_RTK_PRIV: nat := 0
  const SRC_NUM: nat := 2

  const BY_INIT: nat := 0
  const BY_USER: nat := 1
  const BY_COUNTRY_IE: nat := 2
  const BY_NUM: nat := 5

  const UNSPECIFIED: nat := 0xFF
  const WORLDWIDE: string := "00"
  const INTERSECTED: string := "98"

  type Src = s: nat | s < 2
  type Inr = i: nat | i < 5

  // The two bands
  datatype Band = B2G | B5G

  // country_chplan: two bands, the protocols enabled as a set
  datatype Plan = Plan(alpha2: string, domain: nat, edcca2g: nat, edcca5g: nat, txpwr: nat, proto: set<nat>)

  // regd_req_t
  datatype Req = Req(src: Src, inr: Inr, plan: Plan, refCnt: nat, applied: bool)
}
