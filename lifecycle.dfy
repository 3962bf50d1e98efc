/**
 * The Android lifecycle vocabulary the library is written against
 * (`Lifecycle.Event` and `Lifecycle.State`).
 */
module Lifecycle {

  /** `Lifecycle.Event`. */
  datatype Event = OnCreate | OnStart | OnResume | OnPause | OnStop | OnDestroy | OnAny

  /** `Lifecycle.State`. */
  datatype State = Destroyed | Initialized | Created | Started | Resumed

  /** The events that move a lifecycle up. */
  predicate IsUp(e: Event) {
    e == OnCreate || e == OnStart || e == OnResume
  }

  /** The events that move a lifecycle down. */
  predicate IsDown(e: Event) {
    e == OnPause || e == OnStop || e == OnDestroy
  }
}
