/** The two-tier tariff with value-added tax. */
module Tariff {

  /** The tariff settings: the unit price of the first tier, that of the second
      tier and the VAT rate in percent. */
  datatype Settings = Settings(tariff1: real, tariff2: real, tva: real)

  /** The settings the application starts with. */
  const DefaultSettings: Settings := Settings(91.17, 136.49, 18.0)

  /** Consumption up to this many kWh is priced at the first tier. */
  const TierThreshold: real := 150.0

  /** The tax multiplier `1 + tva / 100`. */
  function TaxFactor(settings: Settings): real
  {
    1.0 + settings.tva / 100.0
  }

  /** Tariffs that no one could object to: non-negative prices and a VAT rate
      that does not turn the price negative. */
  predicate SaneSettings(settings: Settings)
  {
    settings.tariff1 >= 0.0 && settings.tariff2 >= 0.0 && settings.tva >= -100.0
  }

  /** The cost before tax: the first 150 kWh at `tariff1`, any excess at
      `tariff2`. */
  function NetCost(settings: Settings, kwh: real): real
  {
    if kwh <= TierThreshold then kwh * settings.tariff1
    else TierThreshold * settings.tariff1 + (kwh - TierThreshold) * settings.tariff2
  }

  /** The cost of `kwh` kWh, VAT included. */
  function CalculateCost(settings: Settings, kwh: real): (cost: real)
    ensures kwh == 0.0 ==> cost == 0.0
  {
    NetCost(settings, kwh) * TaxFactor(settings)
  }

  function Min(a: real, b: real): real { if a <= b then a else b }
  function Max(a: real, b: real): real { if a <= b then b else a }

  /** The tiered cost in closed form for every quantity: the part of the
      consumption below the threshold at tier one, the part above it at tier two. */
  lemma CostByTiers(settings: Settings, kwh: real)
    ensures CalculateCost(settings, kwh) ==
              (Min(kwh, TierThreshold) * settings.tariff1
               + Max(kwh - TierThreshold, 0.0) * settings.tariff2) * TaxFactor(settings)
  {
  }

  /** The two branches of the tariff agree at the threshold, so the cost has no
      jump there; beyond it each further kWh costs `tariff2` plus VAT. */
  lemma CostAboveThreshold(settings: Settings, kwh: real)
    requires kwh >= TierThreshold
    ensures CalculateCost(settings, kwh) ==
              CalculateCost(settings, TierThreshold) + (kwh - TierThreshold) * settings.tariff2 * TaxFactor(settings)
    ensures CalculateCost(settings, TierThreshold) == TierThreshold * settings.tariff1 * TaxFactor(settings)
  {
    var f := TaxFactor(settings);
    calc {
      CalculateCost(settings, kwh);
      (TierThreshold * settings.tariff1 + (kwh - TierThreshold) * settings.tariff2) * f;
      TierThreshold * settings.tariff1 * f + (kwh - TierThreshold) * settings.tariff2 * f;
    }
  }

  /** Below the threshold the cost is proportional to the consumption. */
  lemma CostBelowThreshold(settings: Settings, kwh: real)
    requires kwh <= TierThreshold
    ensures CalculateCost(settings, kwh) == kwh * settings.tariff1 * TaxFactor(settings)
  {
  }

  lemma MulLeftMonotone(a: real, b: real, c: real)
    requires a <= b && c >= 0.0
    ensures a * c <= b * c
  {
  }

  /** With sane settings, more consumption never costs less. */
  lemma CostMonotone(settings: Settings, kwh: real, kwh': real)
    requires SaneSettings(settings)
    requires kwh <= kwh'
    ensures CalculateCost(settings, kwh) <= CalculateCost(settings, kwh')
  {
    NetCostMonotone(settings, kwh, kwh');
    MulLeftMonotone(NetCost(settings, kwh), NetCost(settings, kwh'), TaxFactor(settings));
  }

  lemma NetCostMonotone(settings: Settings, kwh: real, kwh': real)
    requires SaneSettings(settings)
    requires kwh <= kwh'
    ensures NetCost(settings, kwh) <= NetCost(settings, kwh')
  {
    var t1, t2 := settings.tariff1, settings.tariff2;
    if kwh' <= TierThreshold {
      MulLeftMonotone(kwh, kwh', t1);
    } else if kwh <= TierThreshold {
      MulLeftMonotone(kwh, TierThreshold, t1);
      MulLeftMonotone(0.0, kwh' - TierThreshold, t2);
    } else {
      MulLeftMonotone(kwh - TierThreshold, kwh' - TierThreshold, t2);
    }
  }

  /** With sane settings a non-negative consumption has a non-negative cost. */
  lemma CostNonNegative(settings: Settings, kwh: real)
    requires SaneSettings(settings)
    requires kwh >= 0.0
    ensures CalculateCost(settings, kwh) >= 0.0
  {
    CostMonotone(settings, 0.0, kwh);
  }

  /** The default tariff for 30 kWh, at the threshold and just above it. */
  lemma DefaultTariffExamples()
    ensures CalculateCost(DefaultSettings, 30.0) == 30.0 * 91.17 * 1.18
    ensures CalculateCost(DefaultSettings, 150.0) == 150.0 * 91.17 * 1.18
    ensures CalculateCost(DefaultSettings, 151.0) == (150.0 * 91.17 + 136.49) * 1.18
  {
  }
}
