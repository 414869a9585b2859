/** The home page: when the permission dialog is shown, and when the map is
    rendered instead of the empty placeholder. */
module Home {
  import opened Geo

  /** The visibility effect: the dialog flag after a change of permission
      state or coordinates. An unknown permission with both coordinates
      truthy (restored from storage) leaves the flag as it was. */
  function NextDialogVisibility(permission: PermissionState, latitude: Option<int>, longitude: Option<int>, show: bool): (show': bool)
    ensures permission == Granted ==> !show'
    ensures permission == Prompt || permission == Denied ==> show'
    ensures permission == Unknown && (!Truthy(latitude) || !Truthy(longitude)) ==> show'
    ensures permission == Unknown && Truthy(latitude) && Truthy(longitude) ==> show' == show
  {
    if permission == Granted then false
    else if permission == Prompt || permission == Denied then true
    else if !Truthy(latitude) || !Truthy(longitude) then true
    else show
  }

  /** The map gate: the map is rendered only for a granted permission with
      both coordinates truthy; otherwise the placeholder is. */
  predicate RendersMap(permission: PermissionState, latitude: Option<int>, longitude: Option<int>) {
    permission == Granted && Truthy(latitude) && Truthy(longitude)
  }

  /** A rendered map always comes with a hidden dialog, and a coordinate of
      0 yields the placeholder even when the permission is granted. */
  lemma MapAndDialog(latitude: Option<int>, longitude: Option<int>, show: bool)
    ensures RendersMap(Granted, latitude, longitude) ==> !NextDialogVisibility(Granted, latitude, longitude, show)
    ensures !RendersMap(Granted, Some(0), longitude) && !RendersMap(Granted, latitude, Some(0))
    ensures latitude == Some(0) ==> NextDialogVisibility(Unknown, latitude, longitude, show)
  {
  }

  /** Without the map and with the permission not granted, the dialog is
      shown unless an unknown permission comes with stored coordinates. */
  lemma PlaceholderMeansDialog(permission: PermissionState, latitude: Option<int>, longitude: Option<int>, show: bool)
    requires !RendersMap(permission, latitude, longitude) && permission != Granted
    requires !(permission == Unknown && Truthy(latitude) && Truthy(longitude))
    ensures NextDialogVisibility(permission, latitude, longitude, show)
  {
  }

  class HomePage {
    var showPermissionDialog: bool

    constructor ()
      ensures !showPermissionDialog
    {
      showPermissionDialog := false;
    }

    /** The effect over (permissionState, latitude, longitude). */
    method SyncDialog(permission: PermissionState, latitude: Option<int>, longitude: Option<int>)
      modifies this
      ensures showPermissionDialog == NextDialogVisibility(permission, latitude, longitude, old(showPermissionDialog))
    {
      if permission == Granted {
        showPermissionDialog := false;
      } else if permission == Prompt || permission == Denied {
        showPermissionDialog := true;
      } else if permission == Unknown {
        if !Truthy(latitude) || !Truthy(longitude) {
          showPermissionDialog := true;
        }
      }
    }

    /** The dialog's onOpenChange callback sets the flag directly. */
    method OnOpenChange(open: bool)
      modifies this
      ensures showPermissionDialog == open
    {
      showPermissionDialog := open;
    }
  }
}
