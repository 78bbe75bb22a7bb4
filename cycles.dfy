/**
 * The records exchanged with the investment-cycle endpoints
 * (src/app/services/investmentService.ts). Amounts are JavaScript
 * numbers, modelled as reals; dates are the ISO strings the server sends.
 */
module Cycles {
  import opened Options

  datatype Cycle = Cycle(
    id: string,
    name: Option<string>,
    totalDeposit: real,
    totalProfit: real,
    isInvested: bool,
    distributed: bool,
    startDate: string,
    endDate: Option<string>,
    createdAt: string,
    updatedAt: string)

  /** The body of `POST /investment-cycle`. */
  datatype CreatePayload = CreatePayload(
    name: string,
    startDate: Option<string>,
    endDate: Option<string>,
    isInvested: bool)

  /** The body of `PATCH /investment-cycle/update/{id}`; absent fields are not sent. */
  datatype UpdatePayload = UpdatePayload(
    name: Option<string>,
    totalDeposit: Option<real>,
    totalProfit: Option<real>,
    isInvested: Option<bool>,
    distributed: Option<bool>,
    endDate: Option<string>)

  /** The body of `POST /investment-cycle/distribute/{id}`. */
  datatype DistributePayload = DistributePayload(totalProfit: real)
}
