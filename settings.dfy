/**
 * The settings page: the new-service form and its guard. Class
 * SettingsView holds the form and calls the application's add-service
 * handler.
 */
module Settings {
  import opened Seqs
  import opened Types
  import opened App

  datatype ServiceForm = ServiceForm(name: string, description: string, priceEstimate: int)

  const EmptyServiceForm: ServiceForm := ServiceForm("", "", 0)

  /**
   * The service the form adds: one exactly when the name is non-empty and
   * the price is non-zero (truthy), carrying the entered name, description
   * and price.
   */
  function BuildService(form: ServiceForm, freshId: string): (r: Option<ServiceOption>)
    ensures r.Some? <==> form.name != "" && form.priceEstimate != 0
    ensures r.Some? ==> r.value == ServiceOption(freshId, form.name, form.description, form.priceEstimate)
  {
    if form.name != "" && form.priceEstimate != 0 then
      Some(ServiceOption(freshId, form.name, form.description, form.priceEstimate))
    else None
  }

  /** The guard tests truthiness only: a price of 0 is refused, a negative one accepted. */
  lemma PriceGuard(name: string, description: string, freshId: string, price: int)
    requires name != ""
    ensures BuildService(ServiceForm(name, description, 0), freshId).None?
    ensures price < 0 ==> BuildService(ServiceForm(name, description, price), freshId).Some?
  {
  }

  /** The state of the settings component. */
  class SettingsView {
    const app: AppState
    var newService: ServiceForm

    constructor (app: AppState)
      ensures this.app == app && newService == EmptyServiceForm
    {
      this.app := app;
      newService := EmptyServiceForm;
    }

    /** The form's input handlers, which set its fields. */
    method EditForm(form: ServiceForm)
      modifies this
      ensures newService == form
    {
      newService := form;
    }

    /** Adds the service and resets the form when the guard passes; otherwise nothing changes. */
    method Add(freshId: string)
      requires app.Valid()
      requires newService.name != "" && newService.priceEstimate != 0 ==> freshId !in KeysOf(app.services, ServiceId)
      modifies this, app
      ensures app.Valid()
      ensures var built := BuildService(old(newService), freshId);
              if built.Some? then app.services == old(app.services) + [built.value] && newService == EmptyServiceForm
              else app.services == old(app.services) && newService == old(newService)
      ensures app.clients == old(app.clients) && app.projects == old(app.projects)
    {
      var built := BuildService(newService, freshId);
      if built.Some? {
        app.AddService(built.value);
        newService := EmptyServiceForm;
      }
    }
  }
}
