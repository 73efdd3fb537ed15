/**
 * `PermissionUtils.getLocationPermissionGrantedResult`: whether the answer
 * to a permission request grants the location permission.
 */
module Permissions {
  /** `PermissionUtils.REQUEST_CODE_LOCATION_PERMISSION`. */
  const REQUEST_CODE_LOCATION_PERMISSION: int := 1

  /** `PackageManager.PERMISSION_GRANTED` and `PERMISSION_DENIED`. */
  const PERMISSION_GRANTED: int := 0
  const PERMISSION_DENIED: int := -1

  /**
   * True exactly for an answer to the location request that carries one
   * permission and one grant result, and that result is a grant. The single
   * grant result is read only once the length is known to be 1.
   */
  function LocationPermissionGrantedResult(requestCode: int, permissions: seq<string>, grantResults: seq<int>): (r: bool)
    ensures r <==> (requestCode == REQUEST_CODE_LOCATION_PERMISSION && |permissions| == 1
                    && grantResults == [PERMISSION_GRANTED])
  {
    requestCode == REQUEST_CODE_LOCATION_PERMISSION && |permissions| == 1 && |grantResults| == 1
      && grantResults[0] == PERMISSION_GRANTED
  }

  /** Only the number of permissions matters, never their names. */
  lemma PermissionNameIgnored(requestCode: int, p: seq<string>, q: seq<string>, grantResults: seq<int>)
    requires |p| == |q|
    ensures LocationPermissionGrantedResult(requestCode, p, grantResults)
         == LocationPermissionGrantedResult(requestCode, q, grantResults)
  {
  }

  /**
   * Every way to fail: another request code, no permission or several, no
   * grant result or several, or a single result that is not a grant (a denial
   * in particular).
   */
  lemma RefusedAnswers(requestCode: int, permissions: seq<string>, grantResults: seq<int>)
    ensures requestCode != REQUEST_CODE_LOCATION_PERMISSION ==> !LocationPermissionGrantedResult(requestCode, permissions, grantResults)
    ensures |permissions| != 1 ==> !LocationPermissionGrantedResult(requestCode, permissions, grantResults)
    ensures |grantResults| != 1 ==> !LocationPermissionGrantedResult(requestCode, permissions, grantResults)
    ensures |grantResults| == 1 && grantResults[0] != PERMISSION_GRANTED ==> !LocationPermissionGrantedResult(requestCode, permissions, grantResults)
    ensures !LocationPermissionGrantedResult(requestCode, permissions, [PERMISSION_DENIED])
  {
  }

  /** The answer the app's own request gets when the user accepts. */
  lemma AcceptedRequest(permission: string)
    ensures LocationPermissionGrantedResult(REQUEST_CODE_LOCATION_PERMISSION, [permission], [PERMISSION_GRANTED])
  {
  }
}
