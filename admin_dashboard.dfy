/**
 * The admin view: status counts over all requests, the top-five category breakdown, and the panel's
 * report toggle and quick settings.
 */
module AdminDashboard {
  import opened Wrappers
  import opened MockData
  import opened Requests
  import opened Categories

  /** The figures the dashboard shows. */
  datatype Analytics = Analytics(
    totalRequests: nat,
    resolvedRequests: nat,
    pendingRequests: nat,
    progressRequests: nat,
    categoryData: seq<CategoryEntry>)

  /**
   * Computes the dashboard's figures: the length, the three status counts, which add up to the
   * length, and the five largest categories.
   */
  method ComputeAnalytics(rs: seq<ServiceRequest>) returns (a: Analytics)
    ensures a.totalRequests == |rs|
    ensures a.resolvedRequests == CountStatus(rs, Resolved)
    ensures a.pendingRequests == CountStatus(rs, Submitted)
    ensures a.progressRequests == CountStatus(rs, InProgress)
    ensures a.pendingRequests + a.progressRequests + a.resolvedRequests == a.totalRequests
    ensures a.categoryData == TopCategories(rs)
  {
    StatusCountsPartition(rs);
    var top := RankCategories(rs);
    a := Analytics(|rs|, CountStatus(rs, Resolved), CountStatus(rs, Submitted), CountStatus(rs, InProgress), top);
  }

  lemma SeedTypesDistinct()
    ensures forall i, j :: 0 <= i < j < |InitialRequests| ==>
              InitialRequests[i].serviceType != InitialRequests[j].serviceType
  {
    var rs := InitialRequests;
    var initials := [rs[0].serviceType[0], rs[1].serviceType[0], rs[2].serviceType[0]];
    assert initials == ['D', 'C', 'I'];
  }

  /**
   * On the seed every category has one request, so the breakdown lists the three service types in
   * the order they occur.
   */
  lemma SeedCategoryData()
    ensures TopCategories(InitialRequests) == [
              CategoryEntry("Drinking Water Issue", 1),
              CategoryEntry("Cleanliness in Classroom", 1),
              CategoryEntry("ID Card Issue", 1)]
  {
    SeedTypesDistinct();
    RankedOfDistinct(InitialRequests);
    TopCategoriesShape(InitialRequests);
  }

  /** `systemSettings`. */
  datatype SystemSettings = SystemSettings(colorTheme: string, systemAlerts: bool)

  const InitialSettings := SystemSettings("Brand Blue", false)

  /** The quick-setting buttons the panel offers. */
  const ColorThemeSetting := "Color Theme"
  const SystemAlertsSetting := "System Alerts"

  class AdminPanel {
    var showReport: bool
    var systemSettings: SystemSettings

    constructor ()
      ensures !showReport && systemSettings == InitialSettings
    {
      showReport := false;
      systemSettings := InitialSettings;
    }

    /** 'Generate Report' opens the report. */
    method GenerateReport()
      modifies this`showReport
      ensures showReport
    {
      showReport := true;
    }

    /** The report's close button hides it again. */
    method CloseReport()
      modifies this`showReport
      ensures !showReport
    {
      showReport := false;
    }

    /**
     * 'System Alerts' flips `systemAlerts` and announces the new state; 'Color Theme' only shows a
     * notice; any other setting does nothing. The colour theme is never changed.
     */
    method HandleQuickSetting(setting: string) returns (notice: Option<string>)
      modifies this`systemSettings
      ensures systemSettings.colorTheme == old(systemSettings.colorTheme)
      ensures setting == SystemAlertsSetting ==>
                && systemSettings.systemAlerts == !old(systemSettings.systemAlerts)
                && notice == Some(if systemSettings.systemAlerts then "System alerts enabled!" else "System alerts disabled!")
      ensures setting != SystemAlertsSetting ==> systemSettings == old(systemSettings)
      ensures setting == ColorThemeSetting ==> notice == Some("Color theme updated successfully!")
      ensures setting != ColorThemeSetting && setting != SystemAlertsSetting ==> notice == None
    {
      if setting == ColorThemeSetting {
        notice := Some("Color theme updated successfully!");
      } else if setting == SystemAlertsSetting {
        notice := Some(if !systemSettings.systemAlerts then "System alerts enabled!" else "System alerts disabled!");
        systemSettings := systemSettings.(systemAlerts := !systemSettings.systemAlerts);
      } else {
        notice := None;
      }
    }
  }
}
