/** The view-state store of the alerts section
    (src/sections/dashboard/Alerts/store/useAlertsStore.ts): which of the three views is
    shown (the mosaic of date groups, the detail list of one group, one alert), the data
    each of the last two shows, and a loading flag and error of its own. */
module ViewState {
  import opened Js

  /** An alert as the views show it (`AlertItemProps`); `typeName` is the source's `type`.
      The date is kept as the value the store received. */
  datatype AlertProps = AlertProps(
    id: string, title: string, number: string, typeName: string, description: string,
    detailedDescription: string, date: string, latitude: string, longitude: string,
    imageUrl: string, icon: string)

  datatype View = Mosaic | Detail | Alert

  /** The group the detail view lists, with its heading and optional date. */
  datatype DetailData = DetailData(data: seq<AlertProps>, title: string, date: Option<string>)

  const DetailErrorPrefix: string := "Error al preparar la vista detallada: "
  const NoValidData: string := "No hay datos válidos para mostrar"
  const AlertErrorPrefix: string := "Error al preparar la vista de alerta: "
  const InvalidAlert: string := "Datos de alerta no válidos"

  class ViewStore {
    var view: View
    var detailData: Option<DetailData>
    var selectedAlert: Option<AlertProps>
    var isLoading: bool
    var error: Option<string>

    /** What the actions maintain (the raw setters need not): the detail view has a
        non-empty group to list, the alert view has an alert, and a stored group is
        never empty. */
    ghost predicate Consistent()
      reads this`view, this`detailData, this`selectedAlert
    {
      && (view == Detail ==> detailData.Some?)
      && (view == Alert ==> selectedAlert.Some?)
      && (detailData.Some? ==> |detailData.value.data| > 0)
    }

    /** The initial state: the mosaic, nothing selected, not loading, no error. */
    constructor()
      ensures Consistent()
      ensures view == Mosaic && detailData == None && selectedAlert == None && !isLoading && error == None
    {
      view, detailData, selectedAlert, isLoading, error := Mosaic, None, None, false, None;
    }

    /** `setView`. */
    method SetView(v: View)
      modifies this`view
      ensures view == v
    {
      view := v;
    }

    /** `setDetailData`. */
    method SetDetailData(d: Option<DetailData>)
      modifies this`detailData
      ensures detailData == d
    {
      detailData := d;
    }

    /** `setSelectedAlert`. */
    method SetSelectedAlert(a: Option<AlertProps>)
      modifies this`selectedAlert
      ensures selectedAlert == a
    {
      selectedAlert := a;
    }

    /** `setIsLoading`. */
    method SetIsLoading(b: bool)
      modifies this`isLoading
      ensures isLoading == b
    {
      isLoading := b;
    }

    /** `setError`. */
    method SetError(e: Option<string>)
      modifies this`error
      ensures error == e
    {
      error := e;
    }

    /** `showDetailView`: an empty group is refused with an error and nothing else
        changes; otherwise the detail view opens on the group, with the error cleared.
        Either way loading ends. */
    method ShowDetailView(data: seq<AlertProps>, title: string, date: Option<string>)
      requires Consistent()
      modifies this`view, this`detailData, this`isLoading, this`error
      ensures Consistent() && !isLoading
      ensures |data| == 0 ==>
        error == Some(DetailErrorPrefix + NoValidData) && view == old(view) && detailData == old(detailData)
      ensures |data| > 0 ==>
        view == Detail && detailData == Some(DetailData(data, title, date)) && error == None
    {
      isLoading, error := true, None;
      if |data| == 0 {
        error, isLoading := Some(DetailErrorPrefix + NoValidData), false;
      } else {
        view, detailData, isLoading := Detail, Some(DetailData(data, title, date)), false;
      }
    }

    /** `showAlertView`: an alert without id is refused with an error and nothing else
        changes; otherwise the alert view opens on it, with the error cleared. */
    method ShowAlertView(alert: AlertProps)
      requires Consistent()
      modifies this`view, this`selectedAlert, this`isLoading, this`error
      ensures Consistent() && !isLoading
      ensures alert.id == "" ==>
        error == Some(AlertErrorPrefix + InvalidAlert) && view == old(view) && selectedAlert == old(selectedAlert)
      ensures alert.id != "" ==> view == Alert && selectedAlert == Some(alert) && error == None
    {
      isLoading, error := true, None;
      if alert.id == "" {
        error, isLoading := Some(AlertErrorPrefix + InvalidAlert), false;
      } else {
        view, selectedAlert, isLoading := Alert, Some(alert), false;
      }
    }

    /** `backToPreviousView`: from one alert back to the group it came from when there
        is one, else to the mosaic; from the group back to the mosaic, dropping the group;
        from the mosaic nowhere. */
    method BackToPreviousView()
      requires Consistent()
      modifies this`view, this`detailData, this`selectedAlert, this`error
      ensures Consistent()
      ensures old(view) == Alert ==>
        && view == (if old(detailData).Some? then Detail else Mosaic)
        && selectedAlert == None && detailData == old(detailData) && error == None
      ensures old(view) == Detail ==>
        view == Mosaic && detailData == None && selectedAlert == old(selectedAlert) && error == None
      ensures old(view) == Mosaic ==>
        view == Mosaic && detailData == old(detailData) && selectedAlert == old(selectedAlert) && error == old(error)
    {
      if view == Alert {
        if detailData.Some? {
          view, selectedAlert, error := Detail, None, None;
        } else {
          view, selectedAlert, error := Mosaic, None, None;
        }
      } else if view == Detail {
        view, detailData, error := Mosaic, None, None;
      }
    }

    /** `resetToMosaicView`: back to the mosaic with nothing selected. */
    method ResetToMosaicView()
      modifies this`view, this`detailData, this`selectedAlert, this`error
      ensures Consistent()
      ensures view == Mosaic && detailData == None && selectedAlert == None && error == None
    {
      view, detailData, selectedAlert, error := Mosaic, None, None, None;
    }
  }
}
